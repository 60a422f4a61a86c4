/** The four-slot PIN entry: each slot takes at most one decimal digit, focus moves
    forward on typing and back on backspace over an empty slot, and once all four
    slots hold a digit the PIN is handed on. */
module PinEntry {
  import opened Text

  const SlotCount: nat := 4

  /** The slot pattern ^\d?$: empty, or exactly one digit 0 to 9. */
  predicate SlotText(v: string)
  {
    v == "" || (|v| == 1 && IsDigit(v[0]))
  }

  /** every(d => d.length === 1). */
  predicate Filled(vs: seq<string>)
  {
    forall k :: 0 <= k < |vs| ==> |vs[k]| == 1
  }

  /** join(''): the slots one after the other. */
  function Join(vs: seq<string>): string
    decreases |vs|
  {
    if vs == [] then "" else Join(vs[..|vs| - 1]) + vs[|vs| - 1]
  }

  /** A PIN as the entry hands it on: four digits. */
  predicate IsPin(p: string)
  {
    |p| == SlotCount && AllDigits(p)
  }

  /** Joining one-character slots keeps one character per slot, in slot order. */
  lemma {:induction false} JoinSingles(vs: seq<string>)
    requires Filled(vs)
    ensures |Join(vs)| == |vs|
    ensures forall k :: 0 <= k < |vs| ==> Join(vs)[k] == vs[k][0]
    decreases |vs|
  {
    if vs != [] {
      JoinSingles(vs[..|vs| - 1]);
    }
  }

  /** Four filled digit slots join into a PIN. */
  lemma JoinIsPin(vs: seq<string>)
    requires |vs| == SlotCount && Filled(vs)
    requires forall k :: 0 <= k < |vs| ==> SlotText(vs[k])
    ensures IsPin(Join(vs))
  {
    JoinSingles(vs);
  }

  class PinInput {
    var values: seq<string>
    /** The slot that has the keyboard focus. */
    var focus: int
    /** The PINs handed to onComplete, oldest first. */
    var completions: seq<string>

    /** Four slots, each empty or one digit, and every PIN handed on is four digits. */
    predicate Valid()
      reads this
    {
      |values| == SlotCount && 0 <= focus < SlotCount
      && (forall k :: 0 <= k < |values| ==> SlotText(values[k]))
      && (forall k :: 0 <= k < |completions| ==> IsPin(completions[k]))
    }

    /** Four empty slots, the first focused. */
    constructor()
      ensures values == ["", "", "", ""] && focus == 0 && completions == []
      ensures Valid()
    {
      values := ["", "", "", ""];
      focus := 0;
      completions := [];
    }

    /** handleChange(i, v): anything but an empty text or one digit is ignored; otherwise
        slot i takes v, focus moves on after a digit, and a full entry is handed on. */
    method HandleChange(i: int, v: string)
      requires Valid() && 0 <= i < SlotCount
      modifies this
      ensures !SlotText(v) ==> values == old(values) && focus == old(focus) && completions == old(completions)
      ensures SlotText(v) ==> values == old(values)[i := v]
      ensures SlotText(v) ==> focus == if v != "" && i < SlotCount - 1 then i + 1 else old(focus)
      ensures SlotText(v) ==> completions == old(completions) + (if Filled(values) then [Join(values)] else [])
      ensures Valid()
    {
      if !SlotText(v) {
        return;
      }
      var next := values[i := v];
      values := next;
      if v != "" && i < SlotCount - 1 {
        focus := i + 1;
      }
      if Filled(next) {
        JoinIsPin(next);
        completions := completions + [Join(next)];
      }
    }

    /** handleKeyDown(i, key): backspace on an empty slot after the first focuses the
        slot before it; nothing else changes. */
    method HandleKeyDown(i: int, isBackspace: bool)
      requires Valid() && 0 <= i < SlotCount
      modifies this
      ensures focus == if isBackspace && old(values)[i] == "" && i > 0 then i - 1 else old(focus)
      ensures values == old(values) && completions == old(completions)
      ensures Valid()
    {
      if isBackspace && values[i] == "" && i > 0 {
        focus := i - 1;
      }
    }
  }
}
