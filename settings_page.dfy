/** The settings screen: saving the user name, the change-PIN dialogue that asks for
    the old PIN, the new one and its confirmation, and the reminder-days input. */
module SettingsPage {
  import opened Types
  import opened Text
  import opened Base64
  import opened StoreRules
  import opened Store
  import opened DaysInput

  datatype PinMode = Idle | Old | New | Confirm

  /** The message under the PIN slots: none, "the PINs differ", or "wrong PIN". */
  datatype PinError = NoError | Mismatch | Wrong

  /** Decimal digits are Latin-1 characters, so PINs can be base64-encoded. */
  lemma DigitsAreLatin1(s: string)
    requires AllDigits(s)
    ensures IsLatin1(s)
  {
  }

  class SettingsPage {
    var name: string
    var pinMode: PinMode
    var oldPin: string
    var newPin: string
    var pinError: PinError
    /** None stands for NaN, which the store may hold. */
    var days: Option<int>

    /** The PINs held are digit strings, as the PIN entry hands them on. */
    predicate Valid()
      reads this
    {
      AllDigits(oldPin) && AllDigits(newPin)
    }

    /** The screen opens on the store's name and reminder days, with no PIN change under way. */
    constructor(store: OrderStore)
      ensures name == store.user && days == store.reminderDays
      ensures pinMode == Idle && oldPin == "" && newPin == "" && pinError == NoError
      ensures Valid()
    {
      name := store.user;
      days := store.reminderDays;
      pinMode := Idle;
      oldPin := "";
      newPin := "";
      pinError := NoError;
    }

    /** handleNameSave: a non-blank name is saved trimmed; a blank one is ignored. */
    method HandleNameSave(store: OrderStore) returns (saved: bool)
      requires store.Valid()
      modifies store
      ensures saved <==> Trim(name) != ""
      ensures saved ==> store.user == Trim(name) && store.storage == old(store.storage)[UserKey := Trim(name)]
      ensures saved ==> store.Hist() == old(store.Hist()) && store.backups == old(store.backups)
      ensures saved ==> store.screen == old(store.screen) && store.lang == old(store.lang) && store.theme == old(store.theme)
                        && store.reminderDays == old(store.reminderDays) && store.autosave == old(store.autosave)
      ensures !saved ==> unchanged(store)
      ensures store.Valid()
    {
      var trimmed := Trim(name);
      if trimmed == "" {
        return false;
      }
      store.UpdateUser(trimmed);
      saved := true;
    }

    /** The change-PIN button, shown only while no change is under way. */
    method StartChange()
      requires pinMode == Idle
      modifies this
      ensures pinMode == Old
      ensures name == old(name) && oldPin == old(oldPin) && newPin == old(newPin)
      ensures pinError == old(pinError) && days == old(days)
    {
      pinMode := Old;
    }

    /** handleOldPin: keep the old PIN and ask for the new one. */
    method HandleOldPin(pin: string)
      requires Valid() && pinMode == Old && AllDigits(pin)
      modifies this
      ensures oldPin == pin && pinMode == New
      ensures name == old(name) && newPin == old(newPin) && pinError == old(pinError) && days == old(days)
      ensures Valid()
    {
      oldPin := pin;
      pinMode := New;
    }

    /** handleNewPin: keep the new PIN and ask for its confirmation. */
    method HandleNewPin(pin: string)
      requires Valid() && pinMode == New && AllDigits(pin)
      modifies this
      ensures newPin == pin && pinMode == Confirm
      ensures name == old(name) && oldPin == old(oldPin) && pinError == old(pinError) && days == old(days)
      ensures Valid()
    {
      newPin := pin;
      pinMode := Confirm;
    }

    /** handleConfirmPin: a confirmation that differs asks for the new PIN again without
        touching the store; otherwise the store checks the old PIN, and the dialogue
        closes on success or starts over from the old PIN on failure. */
    method HandleConfirmPin(pin: string, store: OrderStore)
      requires Valid() && pinMode == Confirm && AllDigits(pin)
      requires store.Valid()
      modifies this, store
      ensures pin != old(newPin) ==>
        pinError == Mismatch && pinMode == New && newPin == "" && oldPin == old(oldPin)
        && unchanged(store)
      ensures pin == old(newPin) && PinMatches(old(store.storage), old(oldPin)) ==>
        pinMode == Idle && oldPin == "" && newPin == "" && pinError == old(pinError)
        && store.storage == old(store.storage)[PinKey := Btoa(pin)]
      ensures pin == old(newPin) && !PinMatches(old(store.storage), old(oldPin)) ==>
        pinError == Wrong && pinMode == Old && oldPin == "" && newPin == ""
        && store.storage == old(store.storage)
      ensures store.Hist() == old(store.Hist()) && store.user == old(store.user) && store.backups == old(store.backups)
      ensures store.screen == old(store.screen) && store.lang == old(store.lang) && store.theme == old(store.theme)
      ensures store.reminderDays == old(store.reminderDays) && store.autosave == old(store.autosave)
      ensures name == old(name) && days == old(days)
      ensures store.Valid() && Valid()
    {
      if pin != newPin {
        pinError := Mismatch;
        pinMode := New;
        newPin := "";
        return;
      }
      DigitsAreLatin1(oldPin);
      DigitsAreLatin1(pin);
      var ok := store.UpdatePin(oldPin, pin);
      if ok {
        pinMode := Idle;
      } else {
        pinError := Wrong;
        pinMode := Old;
      }
      oldPin := "";
      newPin := "";
    }

    /** The reminder-days input: parseInt of the typed text, with NaN and 0 read as 1.
        Unlike the onboarding input nothing raises it to 1, so a negative number stays. */
    method SetDaysInput(text: string)
      modifies this
      ensures days == Some(ParseIntOr1(text)) && days.value != 0
      ensures name == old(name) && pinMode == old(pinMode) && oldPin == old(oldPin)
      ensures newPin == old(newPin) && pinError == old(pinError)
    {
      days := Some(ParseIntOr1(text));
    }

    /** The OK button next to the input: the store takes the day count. */
    method SaveDays(store: OrderStore)
      requires store.Valid()
      modifies store
      ensures store.reminderDays == days && store.storage == old(store.storage)[ReminderDaysKey := DaysText(days)]
      ensures LoadReminderDays(store.storage) == days
      ensures store.Hist() == old(store.Hist()) && store.backups == old(store.backups)
      ensures store.user == old(store.user) && store.screen == old(store.screen) && store.lang == old(store.lang)
      ensures store.theme == old(store.theme) && store.autosave == old(store.autosave)
      ensures store.Valid()
    {
      store.UpdateReminderDays(days);
    }
  }
}
