/** The first-run wizard: the user's name (step 0), a PIN typed twice (step 1) and
    the reminder days (step 2), then the store is set up with all three. */
module OnboardingWizard {
  import opened Types
  import opened Text
  import opened Base64
  import opened StoreRules
  import opened Store
  import opened DaysInput
  import opened PinEntry

  datatype PinStep = Create | ConfirmPin

  const DefaultDays: int := 3

  class Onboarding {
    var step: int
    var name: string
    var pin: string
    var pinConfirm: string
    var pinError: bool
    var days: int
    var pinStep: PinStep

    /** Three steps; the name is non-blank once past the first, the confirmed PIN is a
        PIN once on the last, and the day count is at least 1. */
    predicate Valid()
      reads this
    {
      0 <= step <= 2 && days >= 1
      && (step >= 1 ==> Trim(name) != "")
      && (step == 2 ==> IsPin(pinConfirm))
    }

    /** Step 0, no name, no PIN, three days, creating the PIN. */
    constructor()
      ensures step == 0 && name == "" && pin == "" && pinConfirm == "" && !pinError
      ensures days == DefaultDays && pinStep == Create
      ensures Valid()
    {
      step := 0;
      name := "";
      pin := "";
      pinConfirm := "";
      pinError := false;
      days := DefaultDays;
      pinStep := Create;
    }

    /** Typing in the name field. */
    method SetName(text: string)
      requires Valid() && step == 0
      modifies this
      ensures name == text && step == old(step) && pin == old(pin) && pinConfirm == old(pinConfirm)
      ensures pinError == old(pinError) && days == old(days) && pinStep == old(pinStep)
      ensures Valid()
    {
      name := text;
    }

    /** Enter or the continue button: step 1 only for a non-blank name. */
    method Continue()
      requires Valid() && step == 0
      modifies this
      ensures step == if Trim(name) != "" then 1 else 0
      ensures name == old(name) && pin == old(pin) && pinConfirm == old(pinConfirm)
      ensures pinError == old(pinError) && days == old(days) && pinStep == old(pinStep)
      ensures Valid()
    {
      if Trim(name) != "" {
        step := 1;
      }
    }

    /** handlePinCreate: keep the PIN and ask for it again. */
    method HandlePinCreate(p: string)
      requires Valid() && step == 1 && pinStep == Create && IsPin(p)
      modifies this
      ensures pin == p && pinStep == ConfirmPin
      ensures step == old(step) && name == old(name) && pinConfirm == old(pinConfirm)
      ensures pinError == old(pinError) && days == old(days)
      ensures Valid()
    {
      pin := p;
      pinStep := ConfirmPin;
    }

    /** handlePinConfirm: the same PIN again moves to the last step; another one shows
        the error and starts the PIN over. */
    method HandlePinConfirm(p: string)
      requires Valid() && step == 1 && pinStep == ConfirmPin && IsPin(p)
      modifies this
      ensures p == old(pin) ==>
        pinConfirm == p && step == 2 && pinStep == old(pinStep) && pin == old(pin) && pinError == old(pinError)
      ensures p != old(pin) ==>
        pinError && pinStep == Create && pin == "" && step == 1 && pinConfirm == old(pinConfirm)
      ensures name == old(name) && days == old(days)
      ensures Valid()
    {
      if p == pin {
        pinConfirm := p;
        step := 2;
      } else {
        pinError := true;
        pinStep := Create;
        pin := "";
      }
    }

    /** The reminder-days input: at least 1 whatever is typed. */
    method SetDays(text: string)
      requires Valid() && step == 2
      modifies this
      ensures days == ClampDays(text)
      ensures step == old(step) && name == old(name) && pin == old(pin) && pinConfirm == old(pinConfirm)
      ensures pinError == old(pinError) && pinStep == old(pinStep)
      ensures Valid()
    {
      days := ClampDays(text);
    }

    /** The final button: the store gets the trimmed name, the confirmed PIN and the days,
        after which exactly that PIN unlocks the app. */
    method Complete(store: OrderStore)
      requires Valid() && step == 2 && store.Valid()
      modifies store
      ensures store.user == Trim(name) && store.user != ""
      ensures store.reminderDays == Some(days) && store.screen == Splash
      ensures store.storage == old(store.storage)[UserKey := Trim(name)][PinKey := Btoa(pinConfirm)]
                                                 [ReminderDaysKey := IntToText(days)][LangKey := LangName(store.lang)]
      ensures forall q :: IsLatin1(q) ==> (store.ValidatePin(q) <==> q == pinConfirm)
      ensures store.lang == old(store.lang) && store.theme == old(store.theme) && store.autosave == old(store.autosave)
      ensures store.Hist() == old(store.Hist()) && store.backups == old(store.backups)
      ensures store.Valid()
    {
      assert IsLatin1(pinConfirm);
      store.CompleteOnboarding(Trim(name), pinConfirm, days);
    }
  }
}
