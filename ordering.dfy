/** The newest-first order both the order list and the dashboard use: a stable
    sort by creation time, descending (the comparator b.createdAt - a.createdAt
    under JavaScript's stable Array.prototype.sort). */
module Ordering {
  import opened Types
  import opened Seqs

  /** Creation times never increase along s. */
  predicate NewestFirst(s: seq<Order>)
  {
    forall i, j :: 0 <= i < j < |s| ==> s[i].createdAt >= s[j].createdAt
  }

  /** Puts o in front of the first order that is not newer than it. */
  function Insert(o: Order, s: seq<Order>): (r: seq<Order>)
    ensures multiset(r) == multiset(s) + multiset{o}
    ensures |r| == |s| + 1
    decreases |s|
  {
    if s == [] || s[0].createdAt <= o.createdAt then [o] + s
    else
      assert s == [s[0]] + s[1..];
      [s[0]] + Insert(o, s[1..])
  }

  /** The orders newest first; orders created at the same time keep their relative order. */
  function SortNewestFirst(s: seq<Order>): (r: seq<Order>)
    ensures multiset(r) == multiset(s)
    ensures |r| == |s|
    decreases |s|
  {
    if s == [] then []
    else
      assert s == [s[0]] + s[1..];
      Insert(s[0], SortNewestFirst(s[1..]))
  }

  lemma {:induction false} InsertKeepsOrder(o: Order, s: seq<Order>)
    requires NewestFirst(s)
    ensures NewestFirst(Insert(o, s))
    decreases |s|
  {
    if s != [] && s[0].createdAt > o.createdAt {
      InsertKeepsOrder(o, s[1..]);
      var r := Insert(o, s[1..]);
      forall k | 0 <= k < |r|
        ensures s[0].createdAt >= r[k].createdAt
      {
        assert r[k] in multiset(s[1..]) + multiset{o};
        if r[k] != o {
          assert r[k] in s[1..];
        }
      }
    }
  }

  /** The result is newest first. */
  lemma {:induction false} SortIsNewestFirst(s: seq<Order>)
    ensures NewestFirst(SortNewestFirst(s))
    decreases |s|
  {
    if s != [] {
      SortIsNewestFirst(s[1..]);
      InsertKeepsOrder(s[0], SortNewestFirst(s[1..]));
    }
  }

  function CreatedAtTime(t: int): Order -> bool
  {
    (o: Order) => o.createdAt == t
  }

  /** The orders created at time t, in their order. */
  function CreatedAt(s: seq<Order>, t: int): seq<Order>
  {
    Filter(s, CreatedAtTime(t))
  }

  /** Insert passes over only orders strictly newer than o, so it never moves o past an
      order created at the same time. */
  lemma {:induction false} InsertStable(o: Order, s: seq<Order>, t: int)
    ensures CreatedAt(Insert(o, s), t) == (if o.createdAt == t then [o] else []) + CreatedAt(s, t)
    decreases |s|
  {
    var p := CreatedAtTime(t);
    if s == [] || s[0].createdAt <= o.createdAt {
      FilterCons(o, s, p);
    } else {
      var x := Insert(o, s[1..]);
      assert Insert(o, s) == [s[0]] + x;
      FilterCons(s[0], x, p);
      InsertStable(o, s[1..], t);
      FilterCons(s[0], s[1..], p);
      assert [s[0]] + s[1..] == s;
      SwapDisjoint(if p(s[0]) then [s[0]] else [], if p(o) then [o] else [], CreatedAt(s[1..], t));
    }
  }

  /** Two pieces of which one is empty can be put in front of a sequence in either order. */
  lemma SwapDisjoint<T>(a: seq<T>, b: seq<T>, rest: seq<T>)
    requires a == [] || b == []
    ensures a + (b + rest) == b + (a + rest)
  {
    if a == [] {
      assert a + (b + rest) == b + rest;
      assert a + rest == rest;
    } else {
      assert b + (a + rest) == a + rest;
      assert b + rest == rest;
    }
  }

  /** The sort is stable: for every creation time, the orders created at that time appear
      in the result in the same relative order as in the input. */
  lemma {:induction false} SortStable(s: seq<Order>, t: int)
    ensures CreatedAt(SortNewestFirst(s), t) == CreatedAt(s, t)
    decreases |s|
  {
    if s != [] {
      SortStable(s[1..], t);
      InsertStable(s[0], SortNewestFirst(s[1..]), t);
      FilterCons(s[0], s[1..], CreatedAtTime(t));
      assert [s[0]] + s[1..] == s;
    }
  }
}
