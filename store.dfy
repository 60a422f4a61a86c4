/** The order store behind every screen: the settings, the order collection with
    its undo and redo stacks, and the browser storage it mirrors. Every method
    keeps the stored collection equal to the one in memory and the two history
    stacks within HistoryLimit snapshots together. */
module Store {
  import opened Types
  import opened Text
  import opened Codec
  import opened Base64
  import opened StoreRules
  import H = History

  class OrderStore {
    var screen: Screen
    var user: string
    var lang: Lang
    var theme: Theme
    /** None stands for NaN, what parseInt gives for unreadable stored text. */
    var reminderDays: Option<int>
    var autosave: bool
    var orders: seq<Order>
    var undoStack: seq<seq<Order>>
    var redoStack: seq<seq<Order>>
    /** The browser's localStorage. */
    var storage: map<string, string>
    /** The collections the autosave download has been offered, oldest first. */
    var backups: seq<seq<Order>>

    /** The collection and its two stacks as one history value. */
    function Hist(): H.History<seq<Order>>
      reads this
    {
      H.History(orders, undoStack, redoStack)
    }

    /** The stacks hold at most HistoryLimit snapshots together, the stored collection
        is the one in memory, and so is the stored user name. */
    predicate Valid()
      reads this
    {
      H.Bounded(Hist()) && LoadOrders(storage) == orders && LoadUser(storage) == user
    }

    /** Start-up: every setting is read from storage (with its default), the history is
        empty, and the theme is written back. */
    constructor(stored: map<string, string>)
      ensures screen == LoadScreen(stored) && user == LoadUser(stored)
      ensures lang == LoadLang(stored) && theme == LoadTheme(stored)
      ensures reminderDays == LoadReminderDays(stored) && autosave == LoadAutosave(stored)
      ensures orders == LoadOrders(stored) && undoStack == [] && redoStack == []
      ensures storage == stored[ThemeKey := ThemeName(theme)]
      ensures backups == []
      ensures Valid()
    {
      screen := LoadScreen(stored);
      user := LoadUser(stored);
      lang := LoadLang(stored);
      theme := LoadTheme(stored);
      reminderDays := LoadReminderDays(stored);
      autosave := LoadAutosave(stored);
      orders := LoadOrders(stored);
      undoStack := [];
      redoStack := [];
      backups := [];
      new;
      storage := stored[ThemeKey := ThemeName(theme)];
      WriteOtherKey(stored, ThemeKey, ThemeName(theme));
    }

    function CanUndo(): (b: bool)
      reads this
      ensures b <==> H.Undo(Hist()) != Hist()
    {
      undoStack != []
    }

    function CanRedo(): (b: bool)
      reads this
      ensures b <==> H.Redo(Hist()) != Hist()
    {
      redoStack != []
    }

    /** Records the current collection for undo, installs next and persists it. */
    method Commit(next: seq<Order>)
      requires Valid()
      modifies this
      ensures Hist() == H.Commit(old(Hist()), next)
      ensures storage == old(storage)[OrdersKey := Encode(next)]
      ensures screen == old(screen) && user == old(user) && lang == old(lang) && theme == old(theme)
      ensures reminderDays == old(reminderDays) && autosave == old(autosave) && backups == old(backups)
      ensures Valid()
    {
      H.CommitBounded(Hist(), next);
      WriteOrdersReadsBack(storage, next);
      var h := H.Commit(Hist(), next);
      undoStack := h.undo;
      redoStack := h.redo;
      orders := next;
      storage := storage[OrdersKey := Encode(next)];
    }

    /** saveOrder: insert or replace by id, record the old collection for undo, persist,
        and offer a backup download unless the stored autosave flag is "false". */
    method SaveOrder(o: Order)
      requires Valid()
      modifies this
      ensures Hist() == H.Commit(old(Hist()), Upsert(old(orders), o))
      ensures o in orders
      ensures storage == old(storage)[OrdersKey := Encode(orders)]
      ensures backups == old(backups) + (if LoadAutosave(old(storage)) then [orders] else [])
      ensures screen == old(screen) && user == old(user) && lang == old(lang) && theme == old(theme)
      ensures reminderDays == old(reminderDays) && autosave == old(autosave)
      ensures Valid()
    {
      var next := Upsert(orders, o);
      UpsertContains(orders, o);
      var wasOn := LoadAutosave(storage);
      Commit(next);
      if wasOn {
        backups := backups + [next];
      }
    }

    /** deleteOrder: remove every order with the id, record the old collection for undo
        (even when nothing was removed) and persist; no backup is offered. */
    method DeleteOrder(id: string)
      requires Valid()
      modifies this
      ensures Hist() == H.Commit(old(Hist()), RemoveById(old(orders), id))
      ensures forall k :: 0 <= k < |orders| ==> orders[k].id != id
      ensures storage == old(storage)[OrdersKey := Encode(orders)]
      ensures screen == old(screen) && user == old(user) && lang == old(lang) && theme == old(theme)
      ensures reminderDays == old(reminderDays) && autosave == old(autosave) && backups == old(backups)
      ensures Valid()
    {
      Commit(RemoveById(orders, id));
    }

    /** undo: nothing to undo changes nothing; otherwise the top snapshot is restored and
        persisted and the current collection goes on the redo stack. */
    method Undo()
      requires Valid()
      modifies this
      ensures Hist() == H.Undo(old(Hist()))
      ensures old(undoStack) == [] ==> storage == old(storage)
      ensures old(undoStack) != [] ==> storage == old(storage)[OrdersKey := Encode(orders)]
      ensures screen == old(screen) && user == old(user) && lang == old(lang) && theme == old(theme)
      ensures reminderDays == old(reminderDays) && autosave == old(autosave) && backups == old(backups)
      ensures Valid()
    {
      if undoStack == [] {
        return;
      }
      var h := H.Undo(Hist());
      orders := h.orders;
      undoStack := h.undo;
      redoStack := h.redo;
      storage := storage[OrdersKey := Encode(orders)];
      WriteOrdersReadsBack(old(storage), orders);
    }

    /** redo: the mirror image of undo. */
    method Redo()
      requires Valid()
      modifies this
      ensures Hist() == H.Redo(old(Hist()))
      ensures old(redoStack) == [] ==> storage == old(storage)
      ensures old(redoStack) != [] ==> storage == old(storage)[OrdersKey := Encode(orders)]
      ensures screen == old(screen) && user == old(user) && lang == old(lang) && theme == old(theme)
      ensures reminderDays == old(reminderDays) && autosave == old(autosave) && backups == old(backups)
      ensures Valid()
    {
      if redoStack == [] {
        return;
      }
      var h := H.Redo(Hist());
      orders := h.orders;
      undoStack := h.undo;
      redoStack := h.redo;
      storage := storage[OrdersKey := Encode(orders)];
      WriteOrdersReadsBack(old(storage), orders);
    }

    /** importJson: an array of orders, or an object whose orders property is one, replaces
        the collection like any other mutation; anything else is refused and changes nothing. */
    method ImportJson(p: Option<Json>) returns (ok: bool)
      requires Valid()
      modifies this
      ensures ok <==> ImportedOrders(p).Some?
      ensures ok ==> Hist() == H.Commit(old(Hist()), ImportedOrders(p).value)
                     && storage == old(storage)[OrdersKey := Encode(orders)]
                     && backups == old(backups)
      ensures !ok ==> Hist() == old(Hist()) && storage == old(storage) && backups == old(backups)
      ensures screen == old(screen) && user == old(user) && lang == old(lang) && theme == old(theme)
      ensures reminderDays == old(reminderDays) && autosave == old(autosave)
      ensures Valid()
    {
      var imported := ImportedOrders(p);
      if imported.None? {
        return false;
      }
      Commit(imported.value);
      return true;
    }

    /** resetAll: the seven keys are removed, the collection and both stacks emptied, the
        user cleared and onboarding shown; language, theme, reminder days and autosave
        keep their values in memory. */
    method ResetAll()
      requires Valid()
      modifies this
      ensures storage == old(storage) - ResetKeys
      ensures orders == [] && undoStack == [] && redoStack == []
      ensures screen == Onboarding && user == ""
      ensures lang == old(lang) && theme == old(theme)
      ensures reminderDays == old(reminderDays) && autosave == old(autosave) && backups == old(backups)
      ensures Valid()
    {
      LoadAfterReset(storage);
      storage := storage - ResetKeys;
      screen := Onboarding;
      orders := [];
      user := "";
      undoStack := [];
      redoStack := [];
    }

    /** completeOnboarding: stores the name, the btoa text of the PIN, the reminder days
        and the current language, and moves on to the splash screen; from then on
        exactly that PIN is accepted. */
    method CompleteOnboarding(name: string, pin: string, days: int)
      requires Valid() && IsLatin1(pin)
      modifies this
      ensures storage == old(storage)[UserKey := name][PinKey := Btoa(pin)]
                                     [ReminderDaysKey := IntToText(days)][LangKey := LangName(lang)]
      ensures user == name && reminderDays == Some(days) && screen == Splash
      ensures forall q :: IsLatin1(q) ==> (ValidatePin(q) <==> q == pin)
      ensures lang == old(lang) && theme == old(theme) && autosave == old(autosave)
      ensures Hist() == old(Hist()) && backups == old(backups)
      ensures Valid()
    {
      WriteOnboarding(storage, name, Btoa(pin), IntToText(days), LangName(lang));
      storage := storage[UserKey := name][PinKey := Btoa(pin)]
                        [ReminderDaysKey := IntToText(days)][LangKey := LangName(lang)];
      user := name;
      reminderDays := Some(days);
      screen := Splash;
      assert storage[PinKey] == Btoa(pin);
      forall q | IsLatin1(q)
        ensures ValidatePin(q) <==> q == pin
      {
        StoredPinMatches(storage, pin, q);
      }
    }

    /** validatePin. */
    predicate ValidatePin(pin: string)
      requires IsLatin1(pin)
      reads this
    {
      PinMatches(storage, pin)
    }

    /** updatePin: a wrong old PIN is refused and nothing changes; otherwise the new PIN
        replaces it and from then on exactly the new PIN is accepted. */
    method UpdatePin(oldPin: string, newPin: string) returns (ok: bool)
      requires Valid() && IsLatin1(oldPin) && IsLatin1(newPin)
      modifies this
      ensures ok <==> PinMatches(old(storage), oldPin)
      ensures ok ==> storage == old(storage)[PinKey := Btoa(newPin)]
      ensures ok ==> forall q :: IsLatin1(q) ==> (ValidatePin(q) <==> q == newPin)
      ensures !ok ==> storage == old(storage)
      ensures screen == old(screen) && user == old(user) && lang == old(lang) && theme == old(theme)
      ensures reminderDays == old(reminderDays) && autosave == old(autosave)
      ensures Hist() == old(Hist()) && backups == old(backups)
      ensures Valid()
    {
      if !PinMatches(storage, oldPin) {
        return false;
      }
      storage := storage[PinKey := Btoa(newPin)];
      WriteOtherKey(old(storage), PinKey, Btoa(newPin));
      forall q | IsLatin1(q)
        ensures ValidatePin(q) <==> q == newPin
      {
        StoredPinMatches(storage, newPin, q);
      }
      return true;
    }

    /** updateUser. */
    method UpdateUser(name: string)
      requires Valid()
      modifies this
      ensures storage == old(storage)[UserKey := name] && user == name
      ensures screen == old(screen) && lang == old(lang) && theme == old(theme)
      ensures reminderDays == old(reminderDays) && autosave == old(autosave)
      ensures Hist() == old(Hist()) && backups == old(backups)
      ensures Valid()
    {
      storage := storage[UserKey := name];
      user := name;
      WriteUserReadsBack(old(storage), name);
    }

    /** updateReminderDays: stored as its text (decimal digits, or "NaN"), which reads back as the same value. */
    method UpdateReminderDays(days: Option<int>)
      requires Valid()
      modifies this
      ensures storage == old(storage)[ReminderDaysKey := DaysText(days)]
      ensures reminderDays == days && LoadReminderDays(storage) == reminderDays
      ensures screen == old(screen) && user == old(user) && lang == old(lang) && theme == old(theme)
      ensures autosave == old(autosave)
      ensures Hist() == old(Hist()) && backups == old(backups)
      ensures Valid()
    {
      storage := storage[ReminderDaysKey := DaysText(days)];
      reminderDays := days;
      WriteOtherKey(old(storage), ReminderDaysKey, DaysText(days));
      WriteSettingsReadBack(old(storage), days, false, lang, theme);
    }

    /** setAutosave: the stored flag decides whether later saves offer a backup. */
    method SetAutosave(v: bool)
      requires Valid()
      modifies this
      ensures storage == old(storage)[AutosaveKey := BoolText(v)]
      ensures autosave == v && LoadAutosave(storage) == v
      ensures screen == old(screen) && user == old(user) && lang == old(lang) && theme == old(theme)
      ensures reminderDays == old(reminderDays)
      ensures Hist() == old(Hist()) && backups == old(backups)
      ensures Valid()
    {
      storage := storage[AutosaveKey := BoolText(v)];
      autosave := v;
      WriteOtherKey(old(storage), AutosaveKey, BoolText(v));
      WriteSettingsReadBack(old(storage), None, v, lang, theme);
    }

    /** toggleTheme, together with the effect that writes the new theme to storage. */
    method ToggleTheme()
      requires Valid()
      modifies this
      ensures theme != old(theme)
      ensures storage == old(storage)[ThemeKey := ThemeName(theme)] && LoadTheme(storage) == theme
      ensures screen == old(screen) && user == old(user) && lang == old(lang)
      ensures reminderDays == old(reminderDays) && autosave == old(autosave)
      ensures Hist() == old(Hist()) && backups == old(backups)
      ensures Valid()
    {
      theme := if theme == Dark then Light else Dark;
      storage := storage[ThemeKey := ThemeName(theme)];
      WriteOtherKey(old(storage), ThemeKey, ThemeName(theme));
      WriteSettingsReadBack(old(storage), None, false, lang, theme);
    }

    /** toggleLang: switches between French and English and stores the choice. */
    method ToggleLang()
      requires Valid()
      modifies this
      ensures lang != old(lang)
      ensures storage == old(storage)[LangKey := LangName(lang)] && LoadLang(storage) == lang
      ensures screen == old(screen) && user == old(user) && theme == old(theme)
      ensures reminderDays == old(reminderDays) && autosave == old(autosave)
      ensures Hist() == old(Hist()) && backups == old(backups)
      ensures Valid()
    {
      lang := if lang == Fr then En else Fr;
      storage := storage[LangKey := LangName(lang)];
      WriteOtherKey(old(storage), LangKey, LangName(lang));
      WriteSettingsReadBack(old(storage), None, false, lang, theme);
    }

    method GoToSplash()
      requires Valid()
      modifies this
      ensures screen == Splash
      ensures user == old(user) && lang == old(lang) && theme == old(theme) && storage == old(storage)
      ensures reminderDays == old(reminderDays) && autosave == old(autosave)
      ensures Hist() == old(Hist()) && backups == old(backups)
      ensures Valid()
    {
      screen := Splash;
    }

    method EnterApp()
      requires Valid()
      modifies this
      ensures screen == App
      ensures user == old(user) && lang == old(lang) && theme == old(theme) && storage == old(storage)
      ensures reminderDays == old(reminderDays) && autosave == old(autosave)
      ensures Hist() == old(Hist()) && backups == old(backups)
      ensures Valid()
    {
      screen := App;
    }

    /** alertOrders over the current collection; now and the date reader are the clock
        and the Date parser. */
    function Alerts(now: int, arrivalTime: string -> Option<int>): seq<Order>
      reads this
    {
      AlertOrders(orders, reminderDays, now, arrivalTime)
    }
  }
}
