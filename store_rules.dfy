/** The rules the order store applies, as functions: the storage keys and how
    each setting is read back from storage, saving (insert or replace by id),
    deleting by id, the shape check on imported data, the PIN check and the
    overdue-arrival alerts. */
module StoreRules {
  import opened Types
  import opened Text
  import opened Codec
  import opened Base64
  import opened Seqs

  /** Storage keys. */
  const UserKey := "it_user"
  const PinKey := "it_pin"
  const LangKey := "it_lang"
  const ThemeKey := "it_theme"
  const ReminderDaysKey := "it_reminder_days"
  const AutosaveKey := "it_autosave"
  const OrdersKey := "it_orders"

  /** The keys a full reset removes. */
  const ResetKeys: set<string> :=
    {UserKey, PinKey, LangKey, ThemeKey, ReminderDaysKey, AutosaveKey, OrdersKey}

  /** The reset removes seven different keys. */
  lemma ResetKeysCount()
    ensures |ResetKeys| == 7
  {
    var s1: set<string> := {UserKey};
    var s2 := s1 + {PinKey};
    var s3 := s2 + {LangKey};
    var s4 := s3 + {ThemeKey};
    var s5 := s4 + {ReminderDaysKey};
    var s6 := s5 + {AutosaveKey};
    var s7 := s6 + {OrdersKey};
    assert PinKey !in s1 && LangKey !in s2 && ThemeKey !in s3;
    assert ReminderDaysKey !in s4 && AutosaveKey !in s5 && OrdersKey !in s6;
    assert s7 == ResetKeys;
  }

  // ---------------------------------------------------------------------------
  // Reading settings back

  /** localStorage.getItem(key) || fallback: a missing or empty entry gives the fallback. */
  function StoredOr(st: map<string, string>, key: string, fallback: string): (v: string)
    ensures key in st && st[key] != "" ==> v == st[key]
    ensures !(key in st && st[key] != "") ==> v == fallback
  {
    if key in st && st[key] != "" then st[key] else fallback
  }

  function LoadUser(st: map<string, string>): string
  {
    StoredOr(st, UserKey, "")
  }

  /** Without a stored user the app starts with onboarding, otherwise at the PIN screen. */
  function LoadScreen(st: map<string, string>): (s: Screen)
    ensures s == Onboarding <==> LoadUser(st) == ""
    ensures s == Onboarding || s == Pin
  {
    if LoadUser(st) == "" then Onboarding else Pin
  }

  /** The stored language; anything but "en" reads as French. */
  function LoadLang(st: map<string, string>): Lang
  {
    if StoredOr(st, LangKey, "fr") == "en" then En else Fr
  }

  /** The stored theme; anything but "light" reads as dark. */
  function LoadTheme(st: map<string, string>): Theme
  {
    if StoredOr(st, ThemeKey, "dark") == "light" then Light else Dark
  }

  /** parseInt of the stored reminder days, "3" when none; None stands for NaN. */
  function LoadReminderDays(st: map<string, string>): Option<int>
  {
    ParseIntText(StoredOr(st, ReminderDaysKey, "3"))
  }

  /** String(days): the decimal text of a number, "NaN" for NaN. */
  function DaysText(days: Option<int>): string
  {
    match days
    case Some(i) => IntToText(i)
    case None => "NaN"
  }

  /** Autosave is on unless the stored flag is exactly "false". */
  function LoadAutosave(st: map<string, string>): bool
  {
    !(AutosaveKey in st && st[AutosaveKey] == "false")
  }

  /** The stored collection; missing, empty or unreadable text gives no orders. */
  function LoadOrders(st: map<string, string>): seq<Order>
  {
    match Decode(StoredOr(st, OrdersKey, "[]"))
    case Some(os) => os
    case None => []
  }

  /** String(v) for a flag. */
  function BoolText(v: bool): string
  {
    if v then "true" else "false"
  }

  /** With nothing stored the app starts in onboarding, with no user, in French, in the
      dark theme, with a three-day reminder, autosave on and no orders. */
  lemma LoadDefaults()
    ensures LoadScreen(map[]) == Onboarding && LoadUser(map[]) == ""
    ensures LoadLang(map[]) == Fr && LoadTheme(map[]) == Dark
    ensures LoadReminderDays(map[]) == Some(3)
    ensures LoadAutosave(map[])
    ensures LoadOrders(map[]) == []
  {
    DecodeEncode([]);
    assert Encode([]) == "[]";
    ParseIntTextRoundTrip(3);
    assert IntToText(3) == "3";
  }

  /** The persisted collection reads back as written; the user entry is untouched. */
  lemma WriteOrdersReadsBack(st: map<string, string>, os: seq<Order>)
    ensures LoadOrders(st[OrdersKey := Encode(os)]) == os
    ensures LoadUser(st[OrdersKey := Encode(os)]) == LoadUser(st)
  {
    DecodeEncode(os);
  }

  /** The stored user name reads back as written; the collection is untouched. */
  lemma WriteUserReadsBack(st: map<string, string>, name: string)
    ensures LoadUser(st[UserKey := name]) == name
    ensures LoadOrders(st[UserKey := name]) == LoadOrders(st)
  {
    assert StoredOr(st[UserKey := name], OrdersKey, "[]") == StoredOr(st, OrdersKey, "[]");
  }

  /** Writing any other key leaves the collection and the user as they read. */
  lemma WriteOtherKey(st: map<string, string>, key: string, v: string)
    requires key != OrdersKey && key != UserKey
    ensures LoadOrders(st[key := v]) == LoadOrders(st)
    ensures LoadUser(st[key := v]) == LoadUser(st)
  {
    assert StoredOr(st[key := v], OrdersKey, "[]") == StoredOr(st, OrdersKey, "[]");
    assert StoredOr(st[key := v], UserKey, "") == StoredOr(st, UserKey, "");
  }

  /** Completing onboarding writes the user, the PIN, the reminder days and the language:
      the collection is untouched, the user reads back as written, and a named user
      starts at the PIN screen next time. */
  lemma WriteOnboarding(st: map<string, string>, name: string, pinText: string, daysText: string, langText: string)
    ensures LoadOrders(st[UserKey := name][PinKey := pinText][ReminderDaysKey := daysText][LangKey := langText])
            == LoadOrders(st)
    ensures LoadUser(st[UserKey := name][PinKey := pinText][ReminderDaysKey := daysText][LangKey := langText])
            == name
    ensures LoadScreen(st[UserKey := name][PinKey := pinText][ReminderDaysKey := daysText][LangKey := langText])
            == if name == "" then Onboarding else Pin
  {
    var st2 := st[UserKey := name][PinKey := pinText][ReminderDaysKey := daysText][LangKey := langText];
    assert StoredOr(st2, OrdersKey, "[]") == StoredOr(st, OrdersKey, "[]");
  }

  /** Each setting the store writes reads back as the value written. */
  lemma WriteSettingsReadBack(st: map<string, string>, days: Option<int>, v: bool, l: Lang, t: Theme)
    ensures LoadReminderDays(st[ReminderDaysKey := DaysText(days)]) == days
    ensures LoadAutosave(st[AutosaveKey := BoolText(v)]) == v
    ensures LoadLang(st[LangKey := LangName(l)]) == l
    ensures LoadTheme(st[ThemeKey := ThemeName(t)]) == t
  {
    if days.Some? {
      ParseIntTextRoundTrip(days.value);
    } else {
      assert LeadingSpaces("NaN") == 0;
      assert "NaN"[0..] == "NaN";
      assert DigitRun("NaN") == 0;
    }
  }

  /** After the reset keys are removed, the next start-up sees what it sees with nothing
      stored: onboarding, no user, French, dark, three days, autosave on, no orders. */
  lemma LoadAfterReset(st: map<string, string>)
    ensures LoadScreen(st - ResetKeys) == Onboarding && LoadUser(st - ResetKeys) == ""
    ensures LoadLang(st - ResetKeys) == Fr && LoadTheme(st - ResetKeys) == Dark
    ensures LoadReminderDays(st - ResetKeys) == Some(3)
    ensures LoadAutosave(st - ResetKeys)
    ensures LoadOrders(st - ResetKeys) == []
  {
    var r := st - ResetKeys;
    assert UserKey !in r && LangKey !in r && ThemeKey !in r;
    assert ReminderDaysKey !in r && AutosaveKey !in r && OrdersKey !in r;
    LoadDefaults();
  }

  // ---------------------------------------------------------------------------
  // Saving and deleting

  predicate HasId(os: seq<Order>, id: string)
  {
    exists k :: 0 <= k < |os| && os[k].id == id
  }

  /** prev.map(o => o.id === order.id ? order : o) */
  function ReplaceById(os: seq<Order>, o: Order): (r: seq<Order>)
    ensures |r| == |os|
    ensures forall k :: 0 <= k < |os| ==> r[k] == if os[k].id == o.id then o else os[k]
    decreases |os|
  {
    if os == [] then []
    else [if os[0].id == o.id then o else os[0]] + ReplaceById(os[1..], o)
  }

  /** saveOrder's update: an order whose id is already present replaces every order with
      that id in place; otherwise it is appended at the end. */
  function Upsert(os: seq<Order>, o: Order): (r: seq<Order>)
    ensures HasId(os, o.id) ==>
              |r| == |os| && forall k :: 0 <= k < |os| ==> r[k] == if os[k].id == o.id then o else os[k]
    ensures !HasId(os, o.id) ==> r == os + [o]
  {
    if HasId(os, o.id) then ReplaceById(os, o) else os + [o]
  }

  /** deleteOrder's update: prev.filter(o => o.id !== id). */
  function RemoveById(os: seq<Order>, id: string): (r: seq<Order>)
    ensures forall k :: 0 <= k < |r| ==> r[k].id != id && r[k] in os
    ensures forall k :: 0 <= k < |os| && os[k].id != id ==> os[k] in r
  {
    Filter(os, (o: Order) => o.id != id)
  }

  /** Deleting an id that is not there gives back the collection unchanged. */
  lemma RemoveAbsent(os: seq<Order>, id: string)
    requires !HasId(os, id)
    ensures RemoveById(os, id) == os
  {
    FilterAll(os, (o: Order) => o.id != id);
  }

  /** Deleting from a concatenation deletes from each part and keeps the parts in order. */
  lemma RemoveConcat(a: seq<Order>, b: seq<Order>, id: string)
    ensures RemoveById(a + b, id) == RemoveById(a, id) + RemoveById(b, id)
  {
    FilterConcat(a, b, (o: Order) => o.id != id);
  }

  /** After a save, the saved order is in the collection. */
  lemma UpsertContains(os: seq<Order>, o: Order)
    ensures o in Upsert(os, o)
  {
    if HasId(os, o.id) {
      var k :| 0 <= k < |os| && os[k].id == o.id;
      assert Upsert(os, o)[k] == o;
    }
  }

  lemma {:induction false} RemoveAfterReplace(os: seq<Order>, o: Order)
    ensures RemoveById(ReplaceById(os, o), o.id) == RemoveById(os, o.id)
    decreases |os|
  {
    if os != [] {
      var head := [if os[0].id == o.id then o else os[0]];
      assert ReplaceById(os, o) == head + ReplaceById(os[1..], o);
      RemoveConcat(head, ReplaceById(os[1..], o), o.id);
      RemoveConcat([os[0]], os[1..], o.id);
      assert [os[0]] + os[1..] == os;
      RemoveAfterReplace(os[1..], o);
    }
  }

  /** A save touches no order with another id: deleting the saved id afterwards gives
      the same collection as deleting it before the save. */
  lemma UpsertThenRemove(os: seq<Order>, o: Order)
    ensures RemoveById(Upsert(os, o), o.id) == RemoveById(os, o.id)
  {
    if HasId(os, o.id) {
      RemoveAfterReplace(os, o);
    } else {
      RemoveConcat(os, [o], o.id);
    }
  }

  /** Saving the same order twice is saving it once. */
  lemma UpsertIdempotent(os: seq<Order>, o: Order)
    ensures Upsert(Upsert(os, o), o) == Upsert(os, o)
  {
    var r := Upsert(os, o);
    UpsertContains(os, o);
    var k :| 0 <= k < |r| && r[k] == o;
    assert HasId(r, o.id);
    assert Upsert(r, o) == r;
  }

  // ---------------------------------------------------------------------------
  // Import

  /** A value JSON.parse can give for an imported file: null, a flag, a number, a text,
      an array of orders, or an object, of which only its orders property (absent when
      None) matters here. */
  datatype Json =
    | JNull
    | JBool(b: bool)
    | JNumber(n: int)
    | JString(s: string)
    | JOrders(items: seq<Order>)
    | JObject(ordersProp: Option<Json>)

  /** JavaScript truthiness: null, false, 0, the empty text and a missing property are
      falsy; every array and every object is truthy, empty or not. */
  predicate Truthy(v: Option<Json>)
  {
    match v
    case None => false
    case Some(JNull) => false
    case Some(JBool(b)) => b
    case Some(JNumber(n)) => n != 0
    case Some(JString(s)) => s != ""
    case Some(_) => true
  }

  /** The value importJson hands to setOrders, or None when it returns false. The file is
      None when JSON.parse throws; reading .orders of null throws too, and both are caught. */
  function ImportResult(parsed: Option<Json>): (r: Option<Json>)
    ensures r.Some? ==> Truthy(r)
    ensures r.Some? <==> parsed.Some? && (parsed.value.JOrders? || (parsed.value.JObject? && Truthy(parsed.value.ordersProp)))
    ensures r.Some? && parsed.value.JObject? ==> r == parsed.value.ordersProp
    ensures r.Some? && parsed.value.JOrders? ==> r == parsed
  {
    match parsed
    case None => None
    case Some(JOrders(_)) => parsed
    case Some(JObject(prop)) => if Truthy(prop) then prop else None
    case Some(_) => None
  }

  /** The collection an import installs: the array imported, when it is an array of orders. */
  function ImportedOrders(parsed: Option<Json>): (r: Option<seq<Order>>)
    ensures r.Some? ==> ImportResult(parsed) == Some(JOrders(r.value))
    ensures ImportResult(parsed).Some? && ImportResult(parsed).value.JOrders? ==> r.Some?
  {
    match ImportResult(parsed)
    case Some(JOrders(items)) => Some(items)
    case _ => None
  }

  /** A file written by exportJson, an object whose orders property is the collection,
      imports that collection, even when it is empty; so does a bare array. */
  lemma ExportedFileImports(os: seq<Order>)
    ensures ImportedOrders(Some(JObject(Some(JOrders(os))))) == Some(os)
    ensures ImportedOrders(Some(JOrders(os))) == Some(os)
  {
  }

  /** Text that is not JSON, null, a bare number, text or flag, and an object whose orders
      property is missing or falsy are all refused. */
  lemma ImportRefusals(prop: Option<Json>, v: Json)
    requires !Truthy(prop)
    requires !v.JOrders? && !v.JObject?
    ensures ImportResult(None) == None
    ensures ImportResult(Some(JObject(prop))) == None
    ensures ImportResult(Some(v)) == None
  {
  }

  // ---------------------------------------------------------------------------
  // PIN

  /** validatePin: the btoa text of the PIN equals the stored one. */
  predicate PinMatches(st: map<string, string>, pin: string)
    requires IsLatin1(pin)
  {
    PinKey in st && st[PinKey] == Btoa(pin)
  }

  /** Once a PIN is stored, exactly that PIN is accepted. */
  lemma StoredPinMatches(st: map<string, string>, p: string, q: string)
    requires IsLatin1(p) && IsLatin1(q)
    requires PinKey in st && st[PinKey] == Btoa(p)
    ensures PinMatches(st, q) <==> q == p
  {
    if PinMatches(st, q) {
      BtoaInjective(p, q);
    }
  }

  // ---------------------------------------------------------------------------
  // Alerts

  const DayMillis := 86400000

  /** An order is overdue when it has arrived, has an arrival date, and more than
      reminderDays whole days have passed since then. arrivalTime stands for
      new Date(text).getTime(), None for an invalid date; a reminderDays of None
      (NaN) makes every comparison false. */
  predicate IsOverdue(o: Order, reminderDays: Option<int>, now: int, arrivalTime: string -> Option<int>)
  {
    o.status == Arrive && o.dateArrival != "" && reminderDays.Some?
    && arrivalTime(o.dateArrival).Some?
    && (now - arrivalTime(o.dateArrival).value) / DayMillis > reminderDays.value
  }

  /** alertOrders: the overdue orders, in collection order. */
  function AlertOrders(os: seq<Order>, reminderDays: Option<int>, now: int,
                       arrivalTime: string -> Option<int>): (r: seq<Order>)
    ensures forall k :: 0 <= k < |r| ==> r[k] in os && IsOverdue(r[k], reminderDays, now, arrivalTime)
    ensures forall k :: 0 <= k < |os| && IsOverdue(os[k], reminderDays, now, arrivalTime) ==> os[k] in r
  {
    Filter(os, (o: Order) => IsOverdue(o, reminderDays, now, arrivalTime))
  }

  /** Alerts keep collection order: the alerts of a concatenation are the alerts of
      each part, one after the other. */
  lemma AlertOrdersConcat(a: seq<Order>, b: seq<Order>, reminderDays: Option<int>, now: int,
                          arrivalTime: string -> Option<int>)
    ensures AlertOrders(a + b, reminderDays, now, arrivalTime)
         == AlertOrders(a, reminderDays, now, arrivalTime) + AlertOrders(b, reminderDays, now, arrivalTime)
  {
    FilterConcat(a, b, (o: Order) => IsOverdue(o, reminderDays, now, arrivalTime));
  }

  /** A longer reminder period never adds alerts, and a later clock never removes any. */
  lemma AlertMonotone(o: Order, d1: int, d2: int, now1: int, now2: int, arrivalTime: string -> Option<int>)
    requires d1 <= d2 && now1 <= now2
    ensures IsOverdue(o, Some(d2), now1, arrivalTime) ==> IsOverdue(o, Some(d1), now2, arrivalTime)
  {
    if IsOverdue(o, Some(d2), now1, arrivalTime) {
      var t := arrivalTime(o.dateArrival).value;
      assert (now1 - t) / DayMillis <= (now2 - t) / DayMillis;
    }
  }

  /** With a three-day reminder, an arrived order from five days ago is overdue, one from
      two days ago is not, and a delivered order from five days ago is not either. */
  lemma AlertExample(o: Order, now: int, arrivalTime: string -> Option<int>)
    requires o.dateArrival != ""
    ensures o.status == Arrive && arrivalTime(o.dateArrival) == Some(now - 5 * DayMillis)
            ==> IsOverdue(o, Some(3), now, arrivalTime)
    ensures arrivalTime(o.dateArrival) == Some(now - 2 * DayMillis) ==> !IsOverdue(o, Some(3), now, arrivalTime)
    ensures o.status == Livre ==> !IsOverdue(o, Some(3), now, arrivalTime)
  {
  }
}
