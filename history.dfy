/** The store's undo/redo history, as values: the current collection and two
    stacks of whole-collection snapshots (the top of a stack is its last
    element). Direct mutations go through Commit; Undo and Redo move one
    snapshot between the stacks. */
module History {
  /** S is the type of one snapshot; the store keeps whole order collections. */
  datatype History<S> = History(orders: S, undo: seq<S>, redo: seq<S>)

  /** At most this many snapshots are kept for undo. */
  const HistoryLimit: nat := 50

  /** Both stacks together never hold more than HistoryLimit snapshots. */
  predicate Bounded<S>(h: History<S>)
  {
    |h.undo| + |h.redo| <= HistoryLimit
  }

  /** prev.slice(-n): the last n elements, or all of them when there are fewer. */
  function LastN<S>(s: seq<S>, n: nat): (r: seq<S>)
    ensures |r| == if |s| < n then |s| else n
    ensures r == s[|s| - |r|..]
  {
    if |s| <= n then s else s[|s| - n..]
  }

  /** pushUndo followed by the mutation: the current collection goes on top of the
      undo stack (which keeps its last 49 entries), the redo stack is emptied and
      next becomes current. CommitShape states what is kept below the top. */
  function Commit<S>(h: History<S>, next: S): (r: History<S>)
    ensures r.orders == next && r.redo == []
    ensures |r.undo| > 0 && r.undo[|r.undo| - 1] == h.orders
  {
    History(next, LastN(h.undo, HistoryLimit - 1) + [h.orders], [])
  }

  /** Below the new top, a commit keeps the last HistoryLimit - 1 snapshots of the old
      undo stack (all of them when there are fewer), so the history stays bounded. */
  lemma CommitShape<S>(h: History<S>, next: S)
    ensures |h.undo| < HistoryLimit ==> |Commit(h, next).undo| == |h.undo| + 1
    ensures |h.undo| >= HistoryLimit - 1 ==> |Commit(h, next).undo| == HistoryLimit
    ensures Commit(h, next).undo[..|Commit(h, next).undo| - 1]
            == h.undo[|h.undo| - (|Commit(h, next).undo| - 1)..]
    ensures Bounded(Commit(h, next))
  {
    var kept := LastN(h.undo, HistoryLimit - 1);
    assert (kept + [h.orders])[..|kept|] == kept;
  }

  /** A commit keeps the history within its bound. */
  lemma CommitBounded<S>(h: History<S>, next: S)
    ensures Bounded(Commit(h, next))
  {
    CommitShape(h, next);
  }

  /** Restores the snapshot on top of the undo stack and pushes the current
      collection on the redo stack; nothing happens when there is nothing to undo. */
  function Undo<S>(h: History<S>): (r: History<S>)
    ensures h.undo == [] ==> r == h
    ensures h.undo != [] ==> r.orders == h.undo[|h.undo| - 1]
                             && r.undo == h.undo[..|h.undo| - 1]
                             && r.redo == h.redo + [h.orders]
    ensures |r.undo| + |r.redo| == |h.undo| + |h.redo|
  {
    if h.undo == [] then h
    else History(h.undo[|h.undo| - 1], h.undo[..|h.undo| - 1], h.redo + [h.orders])
  }

  /** The mirror image of Undo. */
  function Redo<S>(h: History<S>): (r: History<S>)
    ensures h.redo == [] ==> r == h
    ensures h.redo != [] ==> r.orders == h.redo[|h.redo| - 1]
                             && r.redo == h.redo[..|h.redo| - 1]
                             && r.undo == h.undo + [h.orders]
    ensures |r.undo| + |r.redo| == |h.undo| + |h.redo|
  {
    if h.redo == [] then h
    else History(h.redo[|h.redo| - 1], h.undo + [h.orders], h.redo[..|h.redo| - 1])
  }

  /** Redo right after an effective Undo gives back the collection and both stacks. */
  lemma RedoUndo<S>(h: History<S>)
    requires h.undo != []
    ensures Redo(Undo(h)) == h
  {
    assert h.undo[..|h.undo| - 1] + [h.undo[|h.undo| - 1]] == h.undo;
  }

  /** Undo right after an effective Redo gives back the collection and both stacks. */
  lemma UndoRedo<S>(h: History<S>)
    requires h.redo != []
    ensures Undo(Redo(h)) == h
  {
    assert h.redo[..|h.redo| - 1] + [h.redo[|h.redo| - 1]] == h.redo;
  }

  /** After a direct mutation there is nothing to redo. */
  lemma RedoAfterCommit<S>(h: History<S>, next: S)
    ensures Redo(Commit(h, next)) == Commit(h, next)
    ensures Undo(Commit(h, next)).orders == h.orders
  {
  }

  /** n undos in a row. */
  function Undos<S>(h: History<S>, n: nat): History<S>
  {
    if n == 0 then h else Undo(Undos(h, n - 1))
  }

  /** n redos in a row. */
  function Redos<S>(h: History<S>, n: nat): History<S>
    decreases n
  {
    if n == 0 then h else Redos(Redo(h), n - 1)
  }

  /** The mutations ms applied one after the other, first to last. */
  function CommitAll<S>(h: History<S>, ms: seq<S>): History<S>
    decreases |ms|
  {
    if ms == [] then h else CommitAll(Commit(h, ms[0]), ms[1..])
  }

  /** Each undo pops the next snapshot off the undo stack; once it is empty undo does nothing. */
  lemma {:induction false} UndosPop<S>(h: History<S>, n: nat)
    ensures n <= |h.undo| ==> Undos(h, n).undo == h.undo[..|h.undo| - n]
    ensures 0 < n <= |h.undo| ==> Undos(h, n).orders == h.undo[|h.undo| - n]
    ensures n >= |h.undo| ==> Undos(h, n).undo == []
    ensures |Undos(h, n).undo| + |Undos(h, n).redo| == |h.undo| + |h.redo|
  {
    if n > 0 {
      UndosPop(h, n - 1);
      var p := Undos(h, n - 1);
      if n <= |h.undo| {
        assert p.undo == h.undo[..|h.undo| - n + 1];
        assert p.undo[..|p.undo| - 1] == h.undo[..|h.undo| - n];
      }
    }
  }

  /** Each undo that takes effect shortens the undo stack by one. */
  lemma {:induction false} UndosSize<S>(h: History<S>, n: nat)
    ensures |Undos(h, n).undo| == if n <= |h.undo| then |h.undo| - n else 0
  {
    if n > 0 {
      UndosSize(h, n - 1);
    }
  }

  /** n redos undo n undos, as long as there were n snapshots to undo. */
  lemma {:induction false} RedosUndos<S>(h: History<S>, n: nat)
    requires n <= |h.undo|
    ensures Redos(Undos(h, n), n) == h
  {
    if n > 0 {
      var p := Undos(h, n - 1);
      assert p.undo != [] by {
        UndosSize(h, n - 1);
      }
      assert Redo(Undo(p)) == p by {
        RedoUndo(p);
      }
      assert Redos(Undos(h, n), n) == Redos(p, n - 1);
      RedosUndos(h, n - 1);
    }
  }

  /** The last n elements of a suffix are the last n elements of the whole. */
  lemma SuffixOfSuffix<S>(s: seq<S>, from: int, n: int)
    requires 0 <= from <= |s| && 0 <= n <= |s| - from
    ensures s[from..][|s| - from - n..] == s[|s| - n..]
  {
  }

  /** A commit keeps the top of the undo stack (up to HistoryLimit - 1 snapshots)
      and puts the current collection above it. */
  lemma CommitKeepsTop<S>(p: History<S>, next: S, top: seq<S>)
    requires |top| < HistoryLimit && |p.undo| >= |top|
    requires p.undo[|p.undo| - |top|..] == top
    ensures |Commit(p, next).undo| >= |top| + 1
    ensures Commit(p, next).undo[|Commit(p, next).undo| - |top| - 1..] == top + [p.orders]
  {
    var kept := LastN(p.undo, HistoryLimit - 1);
    assert |kept| >= |top|;
    SuffixOfSuffix(p.undo, |p.undo| - |kept|, |top|);
    var u := kept + [p.orders];
    assert Commit(p, next).undo == u;
    assert u[|u| - |top| - 1..] == kept[|kept| - |top|..] + [p.orders];
  }

  /** Moving the first mutation from the list to the stack leaves the expected stack alone. */
  lemma ShiftFront<S>(a: S, top: seq<S>, ms: seq<S>)
    requires ms != []
    ensures (top + [a]) + ([ms[0]] + ms[1..])[..|ms| - 1] == top + ([a] + ms)[..|ms|]
    ensures ([ms[0]] + ms[1..])[|ms| - 1] == ([a] + ms)[|ms|]
  {
    assert [ms[0]] + ms[1..] == ms;
    assert ([a] + ms)[..|ms|] == [a] + ms[..|ms| - 1];
  }

  /** After the mutations ms, the undo stack ends with the collection before each of
      them, oldest first, above whatever top part of the old stack still fits under
      HistoryLimit; the collection is the last mutation's. */
  lemma {:induction false} CommitAllStack<S>(h: History<S>, ms: seq<S>, top: seq<S>)
    requires |top| + |ms| <= HistoryLimit
    decreases |ms|
    requires |h.undo| >= |top| && h.undo[|h.undo| - |top|..] == top
    ensures CommitAll(h, ms).orders == ([h.orders] + ms)[|ms|]
    ensures |CommitAll(h, ms).undo| >= |top| + |ms|
    ensures CommitAll(h, ms).undo[|CommitAll(h, ms).undo| - |top| - |ms|..] == top + ([h.orders] + ms)[..|ms|]
  {
    if ms == [] {
      assert ([h.orders] + ms)[..|ms|] == [];
    } else {
      var next := Commit(h, ms[0]);
      var r := CommitAll(next, ms[1..]);
      assert CommitAll(h, ms) == r;
      assert |next.undo| >= |top| + 1 && next.undo[|next.undo| - |top| - 1..] == top + [h.orders] by {
        CommitKeepsTop(h, ms[0], top);
      }
      CommitAllStack(next, ms[1..], top + [h.orders]);
      ShiftFront(h.orders, top, ms);
    }
  }

  /** Undoing as many times as there were mutations (at most HistoryLimit) gives back
      the collection from before the first one, and redoing as many times afterwards
      restores the state after the last one exactly. */
  lemma UndoRedoAfterMutations<S>(h: History<S>, ms: seq<S>)
    requires |ms| <= HistoryLimit
    ensures Undos(CommitAll(h, ms), |ms|).orders == h.orders
    ensures Redos(Undos(CommitAll(h, ms), |ms|), |ms|) == CommitAll(h, ms)
  {
    var r := CommitAll(h, ms);
    CommitAllStack(h, ms, []);
    UndosPop(r, |ms|);
    if ms != [] {
      assert r.undo[|r.undo| - |ms|] == r.undo[|r.undo| - |ms|..][0];
    }
    RedosUndos(r, |ms|);
  }

  /** However long the history, at most HistoryLimit undos take effect: from a bounded
      history the HistoryLimit-th undo leaves an empty undo stack and further undos
      change nothing. */
  lemma AtMostLimitUndos<S>(h: History<S>, n: nat)
    requires Bounded(h)
    requires n >= HistoryLimit
    ensures Undos(h, n) == Undos(h, HistoryLimit)
  {
    if n > HistoryLimit {
      AtMostLimitUndos(h, n - 1);
      UndosPop(h, n - 1);
    }
  }
}
