/** The reminder-days number inputs: parseInt of the typed text, with NaN and 0
    replaced by 1, and on the onboarding screen also raised to at least 1. */
module DaysInput {
  import opened Types
  import opened Text

  /** parseInt(text) || 1: NaN and 0 become 1, every other number is kept, negative or not. */
  function ParseIntOr1(text: string): (r: int)
    ensures ParseIntText(text).Some? && ParseIntText(text).value != 0 ==> r == ParseIntText(text).value
    ensures ParseIntText(text).None? || ParseIntText(text).value == 0 ==> r == 1
    ensures r != 0
  {
    match ParseIntText(text)
    case None => 1
    case Some(v) => if v == 0 then 1 else v
  }

  /** Math.max(1, parseInt(text) || 1): a day count of at least 1. */
  function ClampDays(text: string): (r: int)
    ensures r >= 1
    ensures ParseIntText(text).Some? && ParseIntText(text).value >= 1 ==> r == ParseIntText(text).value
    ensures ParseIntText(text).None? || ParseIntText(text).value < 1 ==> r == 1
  {
    var v := ParseIntOr1(text);
    if v < 1 then 1 else v
  }

  /** Unreadable or zero input gives one day. */
  lemma NaNOrZeroGivesOne(text: string)
    requires ParseIntText(text) == None || ParseIntText(text) == Some(0)
    ensures ParseIntOr1(text) == 1 && ClampDays(text) == 1
  {
  }

  /** Typing "-2" leaves -2 days with parseInt(text) || 1 alone; the clamp gives 1. */
  lemma NegativeInputExample()
    ensures ParseIntOr1("-2") == -2
    ensures ClampDays("-2") == 1
  {
    ParseIntTextRoundTrip(-2);
    assert IntToText(-2) == "-2";
  }
}
