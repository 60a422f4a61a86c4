/** The order list screen: the accent- and case-insensitive client search, the
    status, transport and month filters, the newest-first order of the result,
    and the list of months offered by the month filter. */
module OrdersView {
  import opened Types
  import opened Seqs
  import opened Ordering

  // ---------------------------------------------------------------------------
  // normalize: NFD, strip combining marks, lower-case

  /** U+0300 to U+036F, the combining diacritical marks the search strips. */
  predicate IsCombiningMark(c: char)
  {
    '\U{0300}' <= c <= '\U{036F}'
  }

  /** The base letter NFD leaves of a precomposed Latin-1 letter; other characters
      are their own decomposition. */
  function BaseLetter(c: char): char
  {
    if '\U{00C0}' <= c <= '\U{00C5}' then 'A'
    else if c == '\U{00C7}' then 'C'
    else if '\U{00C8}' <= c <= '\U{00CB}' then 'E'
    else if '\U{00CC}' <= c <= '\U{00CF}' then 'I'
    else if c == '\U{00D1}' then 'N'
    else if '\U{00D2}' <= c <= '\U{00D6}' then 'O'
    else if '\U{00D9}' <= c <= '\U{00DC}' then 'U'
    else if c == '\U{00DD}' then 'Y'
    else if '\U{00E0}' <= c <= '\U{00E5}' then 'a'
    else if c == '\U{00E7}' then 'c'
    else if '\U{00E8}' <= c <= '\U{00EB}' then 'e'
    else if '\U{00EC}' <= c <= '\U{00EF}' then 'i'
    else if c == '\U{00F1}' then 'n'
    else if '\U{00F2}' <= c <= '\U{00F6}' then 'o'
    else if '\U{00F9}' <= c <= '\U{00FC}' then 'u'
    else if c == '\U{00FD}' || c == '\U{00FF}' then 'y'
    else c
  }

  /** toLowerCase on ASCII and Latin-1 capitals (U+00D7, the multiplication sign, is not a letter). */
  function LowerChar(c: char): char
  {
    if 'A' <= c <= 'Z' || ('\U{00C0}' <= c <= '\U{00DE}' && c != '\U{00D7}') then (c as int + 32) as char
    else c
  }

  predicate IsUpper(c: char)
  {
    'A' <= c <= 'Z' || ('\U{00C0}' <= c <= '\U{00DE}' && c != '\U{00D7}')
  }

  /** What one character of the input becomes in the normalized text. */
  function NormChar(c: char): (d: char)
    requires !IsCombiningMark(c)
    ensures !IsCombiningMark(d) && !IsUpper(d)
  {
    LowerChar(BaseLetter(c))
  }

  /** A normalized character normalizes to itself. */
  lemma NormCharFixed(c: char)
    requires !IsCombiningMark(c)
    ensures NormChar(NormChar(c)) == NormChar(c)
  {
  }

  /** normalize: every combining mark removed, every other character folded and lower-cased. */
  function Normalize(s: string): (r: string)
    ensures forall k :: 0 <= k < |r| ==> !IsCombiningMark(r[k]) && !IsUpper(r[k])
    decreases |s|
  {
    if s == [] then []
    else (if IsCombiningMark(s[0]) then [] else [NormChar(s[0])]) + Normalize(s[1..])
  }

  /** Normalizing a concatenation normalizes each part. */
  lemma {:induction false} NormalizeConcat(a: string, b: string)
    ensures Normalize(a + b) == Normalize(a) + Normalize(b)
    decreases |a|
  {
    if a != [] {
      assert (a + b)[1..] == a[1..] + b;
      NormalizeConcat(a[1..], b);
    } else {
      assert a + b == b;
    }
  }

  /** Normalizing normalized text changes nothing. */
  lemma {:induction false} NormalizeIdempotent(s: string)
    ensures Normalize(Normalize(s)) == Normalize(s)
    decreases |s|
  {
    if s != [] {
      var head := if IsCombiningMark(s[0]) then [] else [NormChar(s[0])];
      NormalizeConcat(head, Normalize(s[1..]));
      NormalizeIdempotent(s[1..]);
      if head != [] {
        NormCharFixed(s[0]);
        assert head[1..] == [];
      }
    }
  }

  /** "José", "JOSÉ" and "Jose" followed by a combining acute accent all read as "jose". */
  lemma NormalizeExample()
    ensures Normalize("Jos\U{00E9}") == "jose"
    ensures Normalize("JOS\U{00C9}") == "jose"
    ensures Normalize("Jose\U{0301}") == "jose"
  {
    assert "Jos\U{00E9}" == "J" + "o" + "s" + "\U{00E9}";
  }

  // ---------------------------------------------------------------------------
  // includes and startsWith

  /** q occurs in s starting at index i. */
  predicate OccursAt(s: string, q: string, i: int)
  {
    0 <= i && i + |q| <= |s| && s[i..i + |q|] == q
  }

  /** String.prototype.includes: q occurs somewhere in s (the empty text everywhere). */
  function Includes(s: string, q: string): (b: bool)
    ensures b <==> exists i :: OccursAt(s, q, i)
    decreases |s|
  {
    if |q| > |s| then false
    else if s[..|q|] == q then
      assert OccursAt(s, q, 0);
      true
    else
      var b := Includes(s[1..], q);
      assert forall i :: OccursAt(s[1..], q, i) ==> OccursAt(s, q, i + 1);
      assert forall i :: OccursAt(s, q, i) ==> i == 0 || OccursAt(s[1..], q, i - 1);
      b
  }

  /** String.prototype.startsWith. */
  predicate StartsWith(s: string, p: string)
  {
    |p| <= |s| && s[..|p|] == p
  }

  /** A literal piece of a text is found in it by the normalized search. */
  lemma NormalizedIncludes(s: string, q: string, i: int)
    requires OccursAt(s, q, i)
    ensures Includes(Normalize(s), Normalize(q))
  {
    assert s == s[..i] + q + s[i + |q|..];
    NormalizeConcat(s[..i] + q, s[i + |q|..]);
    NormalizeConcat(s[..i], q);
    var n := Normalize(s);
    var j := |Normalize(s[..i])|;
    assert n[j..j + |Normalize(q)|] == Normalize(q);
    assert OccursAt(n, Normalize(q), j);
  }

  // ---------------------------------------------------------------------------
  // The filtered list

  /** The four criteria of the list; the empty text means "any". */
  datatype Criteria = Criteria(search: string, status: string, transport: string, month: string)

  /** An order passes when each non-empty criterion holds: the normalized client contains
      the normalized search, the status and transport names are equal to the chosen
      ones, and the order date starts with the chosen month. */
  predicate Matches(o: Order, c: Criteria)
  {
    (c.search == "" || Includes(Normalize(o.client), Normalize(c.search)))
    && (c.status == "" || StatusName(o.status) == c.status)
    && (c.transport == "" || TransportName(o.transport) == c.transport)
    && (c.month == "" || StartsWith(o.dateOrder, c.month))
  }

  function MatchesTest(c: Criteria): Order -> bool
  {
    (o: Order) => Matches(o, c)
  }

  /** filtered: the matching orders, newest first. */
  function Filtered(os: seq<Order>, c: Criteria): (r: seq<Order>)
    ensures NewestFirst(r)
    ensures multiset(r) == multiset(Filter(os, MatchesTest(c)))
  {
    var kept := Filter(os, MatchesTest(c));
    SortIsNewestFirst(kept);
    SortNewestFirst(kept)
  }

  /** The list holds exactly the matching orders of the collection. */
  lemma FilteredMembers(os: seq<Order>, c: Criteria, o: Order)
    ensures o in Filtered(os, c) <==> o in os && Matches(o, c)
  {
    var kept := Filter(os, MatchesTest(c));
    var r := Filtered(os, c);
    assert o in r <==> o in multiset(r);
    assert o in kept <==> o in multiset(kept);
    if o in kept {
      var k :| 0 <= k < |kept| && kept[k] == o;
    }
    if o in os && Matches(o, c) {
      var k :| 0 <= k < |os| && os[k] == o;
      assert MatchesTest(c)(os[k]);
    }
  }

  /** With no criteria the list is the whole collection, newest first. */
  lemma NoCriteria(os: seq<Order>)
    ensures Filtered(os, Criteria("", "", "", "")) == SortNewestFirst(os)
  {
    FilterAll(os, MatchesTest(Criteria("", "", "", "")));
  }

  /** Orders created at the same time keep their collection order in the list. */
  lemma FilteredStable(os: seq<Order>, c: Criteria, t: int)
    ensures CreatedAt(Filtered(os, c), t) == CreatedAt(Filter(os, MatchesTest(c)), t)
  {
    SortStable(Filter(os, MatchesTest(c)), t);
  }

  /** Searching for any literal piece of a client name keeps that order. */
  lemma SearchFindsClient(o: Order, q: string, i: int)
    requires OccursAt(o.client, q, i)
    ensures Matches(o, Criteria(q, "", "", ""))
  {
    NormalizedIncludes(o.client, q, i);
  }

  /** Searching "José" finds the client "jose". */
  lemma SearchExample(o: Order)
    requires o.client == "jose"
    ensures Matches(o, Criteria("Jos\U{00E9}", "", "", ""))
  {
    NormalizeExample();
    assert Normalize("jose") == "jose";
    assert OccursAt("jose", "jose", 0);
  }

  // ---------------------------------------------------------------------------
  // The month list

  /** substring(0, 7) of the order date: its "YYYY-MM" part. */
  function MonthOf(d: string): (m: string)
    ensures |m| <= 7 && StartsWith(d, m)
    ensures m == [] <==> d == []
  {
    if |d| <= 7 then d else d[..7]
  }

  /** The default order of Array.prototype.sort on texts: by character code, a proper
      prefix first. */
  predicate TextBefore(a: string, b: string)
    decreases |a|
  {
    if a == [] then b != []
    else b != [] && (a[0] < b[0] || (a[0] == b[0] && TextBefore(a[1..], b[1..])))
  }

  lemma {:induction false} TextBeforeIrreflexive(a: string)
    ensures !TextBefore(a, a)
    decreases |a|
  {
    if a != [] {
      TextBeforeIrreflexive(a[1..]);
    }
  }

  lemma {:induction false} TextBeforeTransitive(a: string, b: string, c: string)
    requires TextBefore(a, b) && TextBefore(b, c)
    ensures TextBefore(a, c)
    decreases |a|
  {
    if a != [] && a[0] == b[0] && b[0] == c[0] {
      TextBeforeTransitive(a[1..], b[1..], c[1..]);
    }
  }

  lemma {:induction false} TextBeforeTotal(a: string, b: string)
    requires a != b
    ensures TextBefore(a, b) || TextBefore(b, a)
    decreases |a|
  {
    if a != [] && b != [] && a[0] == b[0] {
      assert a == [a[0]] + a[1..] && b == [b[0]] + b[1..];
      TextBeforeTotal(a[1..], b[1..]);
    }
  }

  /** Each month comes after (is smaller than) the one before it. */
  predicate StrictlyDescending(ms: seq<string>)
  {
    forall i, j :: 0 <= i < j < |ms| ==> TextBefore(ms[j], ms[i])
  }

  /** Adds m to a strictly descending list unless it is already there. */
  function InsertMonth(m: string, ms: seq<string>): (r: seq<string>)
    requires StrictlyDescending(ms)
    ensures StrictlyDescending(r)
    ensures forall x :: x in r <==> x == m || x in ms
    decreases |ms|
  {
    if ms == [] then [m]
    else if m == ms[0] then ms
    else if TextBefore(ms[0], m) then
      forall j | 0 < j < |ms| + 1
        ensures TextBefore(([m] + ms)[j], m)
      {
        if j > 1 {
          TextBeforeTransitive(ms[j - 1], ms[0], m);
        }
      }
      [m] + ms
    else
      TextBeforeTotal(m, ms[0]);
      var rest := InsertMonth(m, ms[1..]);
      var r := [ms[0]] + rest;
      forall i, j | 0 <= i < j < |r|
        ensures TextBefore(r[j], r[i])
      {
        if i == 0 {
          if r[j] != m {
            assert r[j] in ms[1..];
          }
        }
      }
      r
  }

  /** months: the distinct non-empty "YYYY-MM" parts of the order dates, latest first. */
  function Months(os: seq<Order>): (r: seq<string>)
    ensures StrictlyDescending(r)
    decreases |os|
  {
    if os == [] then []
    else
      var m := MonthOf(os[|os| - 1].dateOrder);
      var rest := Months(os[..|os| - 1]);
      if m == [] then rest else InsertMonth(m, rest)
  }

  /** Some order of os has a date whose month part is m. */
  predicate InDates(os: seq<Order>, m: string)
  {
    exists k :: 0 <= k < |os| && MonthOf(os[k].dateOrder) == m
  }

  lemma InDatesSnoc(os: seq<Order>, o: Order, m: string)
    ensures InDates(os + [o], m) <==> InDates(os, m) || MonthOf(o.dateOrder) == m
  {
    var t := os + [o];
    if InDates(t, m) {
      var k :| 0 <= k < |t| && MonthOf(t[k].dateOrder) == m;
      if k < |os| {
        assert t[k] == os[k];
      }
    }
    if InDates(os, m) {
      var k :| 0 <= k < |os| && MonthOf(os[k].dateOrder) == m;
      assert t[k] == os[k];
    }
    assert t[|os|] == o;
  }

  /** The month list holds exactly the non-empty month parts of the order dates. */
  lemma {:induction false} MonthsMembers(os: seq<Order>, m: string)
    ensures m in Months(os) <==> m != [] && InDates(os, m)
    decreases |os|
  {
    if os != [] {
      var init := os[..|os| - 1];
      var last := MonthOf(os[|os| - 1].dateOrder);
      MonthsMembers(init, m);
      assert InDates(os, m) <==> InDates(init, m) || last == m by {
        InDatesSnoc(init, os[|os| - 1], m);
        assert init + [os[|os| - 1]] == os;
      }
    }
  }

  /** No month is listed twice. */
  lemma MonthsDistinct(os: seq<Order>)
    ensures forall i, j :: 0 <= i < j < |Months(os)| ==> Months(os)[i] != Months(os)[j]
  {
    var r := Months(os);
    forall i, j | 0 <= i < j < |r|
      ensures r[i] != r[j]
    {
      TextBeforeIrreflexive(r[i]);
    }
  }
}
