# Import tracker: the order store and its screens

Import tracker is a single-page app for a small importer. It records orders shipped
by plane, boat or a mix of both, and follows each one from ordering through arrival
and pick-up to delivery. It also tracks the margin between the real price and the
price charged to the client. All of its state lives in one shared store:

- the settings (user name, PIN, language, theme, reminder period, autosave);
- the order collection, with a bounded undo/redo history of collection snapshots;
- the browser storage that everything is mirrored to.

The screens read from and write to this store. This project models the store and the
logic of the screens in Dafny:

- **the store**: loading from storage, saving, deleting, undo and redo, import,
  reset, the PIN, the settings, and the overdue-order alerts;
- **the orders list**: accent-insensitive search, the status, transport and month
  filters, and the newest-first sort;
- **the dashboard**: total and monthly profit, the six-month profit series, the
  count of orders waiting to be picked up, and the five most recent orders;
- **the order form**: initial contents, the profit kept equal to the price margin,
  the photo-size warning, and submission;
- **the four-slot PIN entry**;
- **the change-PIN dialogue of the settings screen**;
- **the first-run wizard**.

Three modelling choices:

- The store is a class (`Store.OrderStore`) whose methods update its fields the way
  the store's setters do. The screens with local state are classes as well.
- The derived views are pure functions, with lemmas about them.
- Browser storage is a `map<string, string>`. JSON text is modelled by a positional
  codec (`Codec`) that has a proved round trip. `btoa` is real base64 over Latin-1
  text (`Base64`).

## Model

| member | source | states |
|---|---|---|
| Types.TransportFromName | src/lib/types.ts:4 | a transport name reads back as exactly the transport with that name, and no other text does |
| Types.StatusFromName | src/lib/types.ts:12 | a status name reads back as exactly the status with that name, and no other text does |
| Types.TransportOptionsComplete | src/lib/types.ts:24 | every transport is offered exactly once, named avion, bateau, mix in that order |
| Types.StatusOptionsComplete | src/lib/types.ts:25 | every status is offered exactly once, named encours, arrive, recupere, livre in that order |
| Text.Trim | src/pages/Settings.tsx:19-20 | trim gives the empty text exactly for blank input; otherwise a slice of the input with no white space at either end and only white space cut off |
| Text.TrimIdempotent | src/pages/Onboarding.tsx:89 | trimming an already trimmed name changes nothing |
| Text.NatToText | src/context/AppContext.tsx:86 | String(n) is a non-empty run of digits without a leading zero whose value is n |
| Text.ParseIntTokenRoundTrip | src/context/AppContext.tsx:141 | the integer reader reads String(i) followed by any text not starting with a digit back as i and leaves the rest |
| Text.PlusSignExample | src/context/AppContext.tsx:47 | as with parseInt, a plus sign must be followed by a digit: "+-0" reads as NaN and "+7" as 7 |
| Text.ParseIntTextRoundTrip | src/context/AppContext.tsx:47 | parseInt of String(i) is i, so a stored day count reads back unchanged |
| Base64.AtobBtoa | src/context/AppContext.tsx:85 | decoding the base64 text of a Latin-1 PIN gives the PIN back |
| Base64.BtoaInjective | src/context/AppContext.tsx:93-95 | two different PINs never have the same stored base64 text |
| Base64.BtoaLength | src/context/AppContext.tsx:85 | the base64 text of n characters has 4 * ceil(n / 3) characters |
| Codec.TextBodyRoundTrip | src/context/AppContext.tsx:64 | an escaped string followed by a closing quote and any rest parses back to the string and leaves the rest |
| Codec.ItemsRoundTrip | src/context/AppContext.tsx:64 | a list of encoded strings (the photo data) parses back to the same list |
| Codec.FieldsRoundTrip | src/context/AppContext.tsx:64 | a sequence of encoded text, number and list fields parses back to the same fields |
| Codec.OrderRoundTrip | src/context/AppContext.tsx:64 | an encoded order parses back to the same order with all sixteen fields |
| Codec.OrderListRoundTrip | src/context/AppContext.tsx:64 | an encoded order collection parses back to the same collection |
| Codec.DecodeEncode | src/context/AppContext.tsx:49-51 | the stored text of a collection decodes to the same collection, as JSON.parse after JSON.stringify does |
| Codec.EncodeInjective | src/context/AppContext.tsx:68 | different collections have different stored texts, so an undo snapshot identifies one collection |
| Seqs.Filter | src/context/AppContext.tsx:123 | every element kept is in the input and passes the test, every passing element is kept, and the result is no longer than the input |
| Seqs.FilterMultiset | src/context/AppContext.tsx:123 | the filter keeps each passing element exactly as often as it occurs and drops every other one |
| Seqs.FilterConcat | src/context/AppContext.tsx:123 | filtering a concatenation is concatenating the filtered parts, so the filter keeps input order |
| Seqs.FilterIdempotent | src/pages/Orders.tsx:24-29 | filtering twice with the same test is filtering once |
| History.Commit | src/context/AppContext.tsx:67-70 | pushUndo and the new collection: the new collection is installed, the old one is on top of the undo stack, and the redo stack is empty |
| History.CommitShape | src/context/AppContext.tsx:68 | a commit grows the undo stack by one until it holds 50 snapshots, keeps the newest earlier snapshots below the new top, and stays within the bound |
| History.CommitBounded | src/context/AppContext.tsx:68 | a commit keeps the undo stack within 50 snapshots |
| History.RedoUndo | src/context/AppContext.tsx:189-207 | with something to undo, undo followed by redo restores the whole history |
| History.UndoRedo | src/context/AppContext.tsx:189-207 | with something to redo, redo followed by undo restores the whole history |
| History.RedoAfterCommit | src/context/AppContext.tsx:69 | after a save, delete or import there is nothing to redo, and an undo gives back the collection from before it |
| History.RedosUndos | src/context/AppContext.tsx:189-207 | n undos followed by n redos restore the history whenever n snapshots can be undone |
| History.UndosPop | src/context/AppContext.tsx:189-197 | n undos restore the n-th snapshot from the top and leave the snapshots below it; once the stack is empty further undos do nothing, and no snapshot is ever lost |
| History.CommitKeepsTop | src/context/AppContext.tsx:68 | a commit keeps the most recent snapshots, up to 49 of them, directly below the old collection it puts on top |
| History.CommitAllStack | src/context/AppContext.tsx:67-70 | a run of commits stacks the collections it replaced, oldest lowest, cut to the last 50 |
| History.UndoRedoAfterMutations | src/context/AppContext.tsx:189-207 | after up to 50 changes, undoing all of them gives back the starting collection and redoing all of them gives back the final one |
| History.AtMostLimitUndos | src/context/AppContext.tsx:68 | from a bounded history, undos beyond the fiftieth change nothing |
| StoreRules.ResetKeysCount | src/context/AppContext.tsx:181 | reset removes exactly the seven it_ keys |
| StoreRules.LoadDefaults | src/context/AppContext.tsx:41-51 | empty storage gives the onboarding screen, no user, French, dark theme, 3 days, autosave on and no orders |
| StoreRules.WriteOrdersReadsBack | src/context/AppContext.tsx:63-65 | a persisted collection is what the next start-up loads, and the stored user is untouched |
| StoreRules.WriteUserReadsBack | src/context/AppContext.tsx:129-132 | a stored user name loads back and the stored collection is untouched |
| StoreRules.WriteOnboarding | src/context/AppContext.tsx:83-87 | after onboarding, the next start-up loads the name and the same collection, and starts at the PIN screen for a non-empty name |
| StoreRules.WriteSettingsReadBack | src/context/AppContext.tsx:140-148 | a stored day count (or NaN), autosave flag, language and theme each load back unchanged |
| StoreRules.LoadAfterReset | src/context/AppContext.tsx:180-187 | after a reset, the next start-up loads the same defaults as with nothing stored |
| StoreRules.ReplaceById | src/context/AppContext.tsx:113 | every order with the saved id is replaced by the saved order and every other order is kept in place |
| StoreRules.Upsert | src/context/AppContext.tsx:112-113 | a save replaces the orders with the same id, or appends the order when its id is new |
| StoreRules.RemoveById | src/context/AppContext.tsx:123 | every order kept has another id and comes from the collection, and every order with another id is kept |
| StoreRules.RemoveAbsent | src/context/AppContext.tsx:123 | deleting an absent id leaves the collection unchanged |
| StoreRules.RemoveConcat | src/context/AppContext.tsx:123 | deleting from two collections put together deletes from each and keeps their order |
| StoreRules.UpsertContains | src/context/AppContext.tsx:109-118 | the saved order is in the collection after the save |
| StoreRules.RemoveAfterReplace | src/context/AppContext.tsx:113 | replacing by id and then deleting that id is the same as deleting it |
| StoreRules.UpsertThenRemove | src/context/AppContext.tsx:109-127 | saving an order and then deleting its id leaves the collection with that id deleted |
| StoreRules.UpsertIdempotent | src/context/AppContext.tsx:109-118 | saving the same order twice is saving it once |
| StoreRules.ImportResult | src/context/AppContext.tsx:164-178 | the import is accepted exactly for a parsed array or a parsed object whose orders property is truthy, and what it installs is always truthy |
| StoreRules.ImportedOrders | src/context/AppContext.tsx:167-174 | a collection is installed only when the accepted value is an array of orders, and whenever it is |
| StoreRules.ExportedFileImports | src/context/AppContext.tsx:150-174 | a file written by the export, or a bare array, imports its collection, the empty one included |
| StoreRules.ImportRefusals | src/context/AppContext.tsx:165-177 | unparsable text, null, a primitive, and an object whose orders property is missing or falsy are refused |
| StoreRules.StoredPinMatches | src/context/AppContext.tsx:93-95 | once a PIN is stored, exactly that PIN is accepted |
| StoreRules.AlertOrders | src/context/AppContext.tsx:212-219 | every alert is an overdue order of the collection (arrived, with an arrival date, more days ago than the reminder period), and every overdue order alerts |
| StoreRules.AlertOrdersConcat | src/context/AppContext.tsx:214 | alerts keep collection order |
| StoreRules.AlertMonotone | src/context/AppContext.tsx:216-217 | a longer reminder period never adds alerts and a later clock never removes any |
| StoreRules.AlertExample | src/context/AppContext.tsx:215-217 | with a three-day period, an arrived order from five days ago alerts; one from two days ago and a delivered one do not |
| Store.OrderStore.constructor | src/context/AppContext.tsx:41-60 | every setting is loaded from storage with its default, the stacks start empty and the theme is written back |
| Store.OrderStore.CanUndo | src/context/AppContext.tsx:223 | canUndo holds exactly when undo would change the history |
| Store.OrderStore.CanRedo | src/context/AppContext.tsx:223 | canRedo holds exactly when redo would change the history |
| Store.OrderStore.SaveOrder | src/context/AppContext.tsx:109-118 | the history takes the saved collection, the order is in it, it is persisted, a backup is offered when autosave is on, nothing else changes |
| Store.OrderStore.DeleteOrder | src/context/AppContext.tsx:120-127 | the history takes the collection without the id, no order keeps the id, it is persisted, nothing else changes |
| Store.OrderStore.Undo | src/context/AppContext.tsx:189-197 | the history is undone; storage changes only when there was something to undo, and then holds the restored collection |
| Store.OrderStore.Redo | src/context/AppContext.tsx:199-207 | the history is redone; storage changes only when there was something to redo, and then holds the restored collection |
| Store.OrderStore.ImportJson | src/context/AppContext.tsx:164-178 | the import succeeds exactly when the parsed file yields an array of orders, which is then committed and persisted; a refused import changes nothing |
| Store.OrderStore.ResetAll | src/context/AppContext.tsx:180-187 | the seven keys are removed, the collection and stacks are emptied, and the screen goes back to onboarding with no user |
| Store.OrderStore.CompleteOnboarding | src/context/AppContext.tsx:83-91 | the name, PIN text and days are stored, the screen goes to splash, and afterwards exactly the new PIN is accepted |
| Store.OrderStore.UpdatePin | src/context/AppContext.tsx:134-138 | the change succeeds exactly when the old PIN matches; afterwards exactly the new PIN is accepted, and a refused change changes nothing |
| Store.OrderStore.UpdateUser | src/context/AppContext.tsx:129-132 | the name is stored and shown, and nothing else changes |
| Store.OrderStore.UpdateReminderDays | src/context/AppContext.tsx:140-143 | the days are stored as text that loads back to the same value, and nothing else changes |
| Store.OrderStore.SetAutosave | src/context/AppContext.tsx:145-148 | the flag is stored as text that loads back to the same value, and nothing else changes |
| Store.OrderStore.ToggleTheme | src/context/AppContext.tsx:100 | the theme flips and the effect stores it |
| Store.OrderStore.ToggleLang | src/context/AppContext.tsx:101-107 | the language flips and is stored |
| Store.OrderStore.GoToSplash | src/context/AppContext.tsx:97 | only the screen changes, to splash; the store invariant is kept |
| Store.OrderStore.EnterApp | src/context/AppContext.tsx:98 | only the screen changes, to the app; the store invariant is kept |
| Ordering.SortNewestFirst | src/pages/Orders.tsx:30 | the sort is a permutation of its input |
| Ordering.SortIsNewestFirst | src/pages/Orders.tsx:30 | the sorted orders are ordered by creation time, newest first |
| Ordering.SortStable | src/pages/Orders.tsx:30 | orders with the same creation time keep their collection order |
| OrdersView.NormCharFixed | src/pages/Orders.tsx:8 | normalizing an already normalized character changes nothing |
| OrdersView.Normalize | src/pages/Orders.tsx:8 | the normalized text has no combining accent and no capital letter |
| OrdersView.NormalizeConcat | src/pages/Orders.tsx:8 | normalizing two texts put together normalizes each |
| OrdersView.NormalizeIdempotent | src/pages/Orders.tsx:8 | normalizing twice is normalizing once |
| OrdersView.NormalizeExample | src/pages/Orders.tsx:8 | a precomposed accent, a capital accented letter and a decomposed accent all normalize to the same text |
| OrdersView.Includes | src/pages/Orders.tsx:25 | includes holds exactly when the query occurs at some position |
| OrdersView.NormalizedIncludes | src/pages/Orders.tsx:25 | a query that occurs in a name still occurs in it once both are normalized |
| OrdersView.Filtered | src/pages/Orders.tsx:23-31 | the list is newest first and holds exactly, with multiplicity, the orders that pass every filter |
| OrdersView.FilteredMembers | src/pages/Orders.tsx:24-29 | an order is listed exactly when it is in the collection and passes the search, status, transport and month filters |
| OrdersView.NoCriteria | src/pages/Orders.tsx:25-28 | with no filter set, the list is the whole collection sorted newest first |
| OrdersView.FilteredStable | src/pages/Orders.tsx:30 | listed orders with the same creation time keep the order the filter left them in, which is collection order |
| OrdersView.SearchFindsClient | src/pages/Orders.tsx:25 | a search for any text occurring in the client name finds the order |
| OrdersView.SearchExample | src/pages/Orders.tsx:25 | a search for an accented, capitalised name finds the client written without accent in lower case |
| OrdersView.TextBeforeTransitive | src/pages/Orders.tsx:20 | the default text sort order is transitive |
| OrdersView.TextBeforeTotal | src/pages/Orders.tsx:20 | any two different texts are ordered one way or the other |
| OrdersView.Months | src/pages/Orders.tsx:18-21 | the month list is strictly descending |
| OrdersView.MonthsMembers | src/pages/Orders.tsx:19 | a month is listed exactly when it is non-empty and the seven-character prefix of some order date |
| OrdersView.MonthsDistinct | src/pages/Orders.tsx:19 | no month is listed twice |
| Dashboard.SumProfitConcat | src/pages/Dashboard.tsx:21 | the profit of two collections put together is the sum of their profits |
| Dashboard.ProfitInSplit | src/pages/Dashboard.tsx:21-25 | the total profit is the profit inside the month plus the profit outside it |
| Dashboard.ProfitInEmptyMonth | src/pages/Dashboard.tsx:22-25 | a month in which no order was placed has profit 0 |
| Dashboard.MonthText | src/pages/Dashboard.tsx:32 | the padded month is two digits whose value is the one-based month |
| Dashboard.MonthTextExample | src/pages/Dashboard.tsx:32 | January, September and December read 01, 09 and 12 |
| Dashboard.MonthKeyParse | src/pages/Dashboard.tsx:32 | reading a month key gives its year back and leaves the dash and the month |
| Dashboard.MonthKeyInjective | src/pages/Dashboard.tsx:32 | different months have different keys |
| Dashboard.MonthsBefore | src/pages/Dashboard.tsx:31 | going back some months lands on a valid month the right number of months earlier, across years |
| Dashboard.ChartData | src/pages/Dashboard.tsx:30 | the series has six bars |
| Dashboard.ChartMonths | src/pages/Dashboard.tsx:28-36 | the bars cover six consecutive months, ascending, ending with the current one |
| Dashboard.ChartKeys | src/pages/Dashboard.tsx:31-33 | bar i shows the month 5 - i months back, keyed by that month, with the profit of the orders placed in it |
| Dashboard.ChartKeysDistinct | src/pages/Dashboard.tsx:32 | no two bars share a month |
| Dashboard.ChartRollOverExample | src/pages/Dashboard.tsx:31 | in February 2025 the series starts in September 2024 and goes through December and January |
| Dashboard.ChartEndsWithMonthProfit | src/pages/Dashboard.tsx:22-36 | the last bar's profit is the month profit of the card |
| Dashboard.ToPickup | src/pages/Dashboard.tsx:26 | the count is at most the number of orders |
| Dashboard.ToPickupZero | src/pages/Dashboard.tsx:26 | the count is zero exactly when no order has arrived |
| Dashboard.ToPickupConcat | src/pages/Dashboard.tsx:26 | counts over two collections put together add |
| Dashboard.Recent | src/pages/Dashboard.tsx:38 | the recent list has five orders, or as many as the collection holds when there are fewer; it holds each order at most as often as the collection does, and exactly the collection when it has at most five |
| Dashboard.RecentAreNewest | src/pages/Dashboard.tsx:38 | the recent orders are orders of the collection, newest first, and no order left out is newer than one shown |
| OrderForm.FindById | src/pages/OrderForm.tsx:12-13 | the order found is the first order with the id; nothing is found exactly when no order has it |
| OrderForm.SetPriceRecomputes | src/pages/OrderForm.tsx:31-39 | a price change sets that price, keeps the other, and makes the profit the client price minus the real price |
| OrderForm.SetOtherKeepsProfit | src/pages/OrderForm.tsx:31-39 | any other change keeps the profit and both prices |
| OrderForm.SetKeepsConsistent | src/pages/OrderForm.tsx:31-39 | editing through the inputs keeps a consistent profit consistent |
| OrderForm.ProfitExample | src/pages/OrderForm.tsx:34-36 | a real price of 1000 and a client price of 1500 give a profit of 500 |
| OrderForm.TotalSizeConcat | src/pages/OrderForm.tsx:41-44 | the size of two photo lists put together is the sum of their sizes |
| OrderForm.RemoveAt | src/pages/OrderForm.tsx:60-62 | removing photo i leaves the photos before and after it, in order; an index outside the list removes nothing |
| OrderForm.RemoveAtSize | src/pages/OrderForm.tsx:60-62 | removing a photo lowers the total size by its size |
| OrderForm.WarningMonotone | src/pages/OrderForm.tsx:41-62 | removing a photo never turns the warning on and adding one never turns it off |
| OrderForm.Submitted | src/pages/OrderForm.tsx:67-71 | the submitted order carries exactly the form's fields |
| OrderForm.SubmittedIdentity | src/pages/OrderForm.tsx:69-70 | an edit keeps the order's id and creation time; a new order takes the clock for both |
| OrderForm.EditUnchangedRoundTrip | src/pages/OrderForm.tsx:15-21 | opening an order and submitting it unchanged gives back the same order |
| OrderForm.SubmitEditReplaces | src/pages/OrderForm.tsx:64-74 | submitting an edit of an order in the collection replaces it in place |
| OrderForm.OrderFormPage.constructor | src/pages/OrderForm.tsx:15-29 | the form opens on the edited order's fields or on the blank form |
| OrderForm.OrderFormPage.Set | src/pages/OrderForm.tsx:31-44 | one field is set, prices recompute the profit, and the warning follows the photos |
| OrderForm.OrderFormPage.AddPhoto | src/pages/OrderForm.tsx:46-53 | the photo is appended and a shown warning stays |
| OrderForm.OrderFormPage.RemovePhoto | src/pages/OrderForm.tsx:60-62 | photo i is removed and a hidden warning stays hidden |
| OrderForm.OrderFormPage.Submit | src/pages/OrderForm.tsx:64-74 | a blank client name changes nothing; otherwise the submitted order is committed, persisted and offered as a backup when autosave is on, and the store's screen, user and settings stay as they were |
| PinEntry.JoinSingles | src/components/PinInput.tsx:18-19 | joining one-character slots gives one character per slot, in slot order |
| PinEntry.JoinIsPin | src/components/PinInput.tsx:18-19 | four filled digit slots join into a four-digit PIN |
| PinEntry.PinInput.constructor | src/components/PinInput.tsx:9 | four empty slots, the first focused |
| PinEntry.PinInput.HandleChange | src/components/PinInput.tsx:12-21 | input other than one digit or nothing is ignored; otherwise the slot takes it, focus moves on after a digit, and a full entry hands on a four-digit PIN |
| PinEntry.PinInput.HandleKeyDown | src/components/PinInput.tsx:23-27 | backspace on an empty slot after the first focuses the slot before it, and nothing else changes |
| DaysInput.ParseIntOr1 | src/pages/Settings.tsx:116 | a readable non-zero number is kept as it is, negative ones included; unreadable text and 0 give 1 |
| DaysInput.ClampDays | src/pages/Onboarding.tsx:84 | the day count is at least 1, and is the typed number when that is at least 1 |
| DaysInput.NaNOrZeroGivesOne | src/pages/Onboarding.tsx:84 | unreadable or zero input gives one day |
| DaysInput.NegativeInputExample | src/pages/Settings.tsx:116 | typing -2 leaves -2 days as written, and the clamp gives 1 |
| SettingsPage.DigitsAreLatin1 | src/pages/Settings.tsx:43 | a digit PIN can always be base64-encoded |
| SettingsPage.SettingsPage.constructor | src/pages/Settings.tsx:10-15 | the screen opens on the store's name and days, with no PIN change under way |
| SettingsPage.SettingsPage.HandleNameSave | src/pages/Settings.tsx:18-23 | a non-blank name is stored and shown trimmed with everything else in the store unchanged; a blank one changes nothing |
| SettingsPage.SettingsPage.StartChange | src/pages/Settings.tsx:95 | the dialogue asks for the old PIN |
| SettingsPage.SettingsPage.HandleOldPin | src/pages/Settings.tsx:25-28 | the old PIN is kept and the new one is asked for |
| SettingsPage.SettingsPage.HandleNewPin | src/pages/Settings.tsx:30-33 | the new PIN is kept and its confirmation is asked for |
| SettingsPage.SettingsPage.HandleConfirmPin | src/pages/Settings.tsx:35-55 | a differing confirmation asks for the new PIN again; a matching one changes the stored PIN exactly when the old PIN is right and shows the error otherwise; nothing else in the store changes |
| SettingsPage.SettingsPage.SetDaysInput | src/pages/Settings.tsx:116 | the typed days are parseInt of the text with NaN and 0 read as 1, so a negative number is kept |
| SettingsPage.SettingsPage.SaveDays | src/pages/Settings.tsx:118 | the store takes the day count and stores it as text that loads back the same; nothing else in the store changes |
| OnboardingWizard.Onboarding.constructor | src/pages/Onboarding.tsx:7-13 | step 0, no name, no PIN, three days |
| OnboardingWizard.Onboarding.SetName | src/pages/Onboarding.tsx:52 | only the name changes |
| OnboardingWizard.Onboarding.Continue | src/pages/Onboarding.tsx:52-56 | step 1 is reached exactly for a non-blank name |
| OnboardingWizard.Onboarding.HandlePinCreate | src/pages/Onboarding.tsx:15-18 | the PIN is kept and asked for again |
| OnboardingWizard.Onboarding.HandlePinConfirm | src/pages/Onboarding.tsx:20-30 | the same PIN again moves to the last step; another one shows the error and starts the PIN over |
| OnboardingWizard.Onboarding.SetDays | src/pages/Onboarding.tsx:84 | the days become the clamped typed count |
| OnboardingWizard.Onboarding.Complete | src/pages/Onboarding.tsx:89 | the store stores and shows the trimmed non-blank name, the PIN's base64 text, the days and the language, goes to splash, and accepts exactly the confirmed PIN; the history, theme, autosave and backups stay as they were |

## Left out

- The file downloads of triggerAutoSave and exportJson (src/context/AppContext.tsx:72-81 and 150-162) are browser I/O. The store records each collection it would offer as a backup in `backups` instead, and exportJson has no model.
- JSON syntax is not modelled. `Codec` is a positional encoding with the same round-trip property as JSON.stringify followed by JSON.parse. Text that parses but holds something other than orders is not modelled.
- StoreRules.ImportedOrders: a truthy `orders` property that is not an array of orders (a number, a text, an object) is installed by the source as the collection; the model refuses it, because its collection holds orders only. JSON text is taken as already parsed (the parsed value is a parameter), and arrays with items that are not orders are not modelled.
- Store.OrderStore.ImportJson: returns false for such a non-array truthy `orders` property, where the source returns true after installing it.
- Stored lang and theme texts other than the two known values are read as the defaults. The source keeps such junk values as they are.
- Text.ParseIntText reads only the base-ten forms: an optional sign immediately followed by digits, after leading white space. Hexadecimal prefixes and other radix forms of parseInt are not modelled.
- OrdersView.Normalize folds accents and case only for Latin-1 letters and the combining marks U+0300 to U+036F. Full Unicode NFD and toLowerCase are not modelled.
- Text order compares characters by code point, not by UTF-16 code unit. The two differ only above U+FFFF.
- Dashboard takes the current year and month as parameters. UTC versus local time, toISOString's year padding and toLocaleDateString month labels are not modelled.
- Labels, translations and formatXOF are presentation only.
- Prices are integers. Floating-point results of Number() and NaN prices are not modelled.
- Day counts are unbounded integers. JavaScript numbers round above 2^53, so parseInt of a longer digit run is not exact, and String() writes exponent form from 1e21 on, which parseInt reads back as 1. Text.NatToText, Text.ParseIntTextRoundTrip, StoreRules.WriteSettingsReadBack, Store.OrderStore.UpdateReminderDays and SettingsPage.SettingsPage.SaveDays are exact only for safe integers in that sense.
- OrderForm.OrderFormPage.AddPhoto adds one photo per call. The asynchronous FileReader and the stale form copy that several files read at once can see (src/pages/OrderForm.tsx:46-53) are not modelled.
- The timers are not modelled: the setTimeout that clears PIN errors and the delayed completion of the PIN entry.
- Keyboard focus is a cursor index. DOM refs, autoFocus and the remount of PinInput by key are not modelled.
- The alert clock `Date.now()` and date parsing `new Date(...).getTime()` are parameters of StoreRules.AlertOrders.
- Presentational files are not part of this model: App.tsx, the badges, StarRating, Navbar, AnimatedPage, AquaBackground, OrderDetail, PinScreen and SplashScreen.

## Findings

| source | as written | input that shows it | evidently intended | confidence | as-written member | corrected member |
|---|---|---|---|---|---|---|
| src/pages/Settings.tsx:116 | the reminder days are read as parseInt of the typed text, with NaN and 0 replaced by 1; negative numbers pass through | typing "-2" gives -2 days; saved, it makes every arrived order whose arrival date is at most a day ahead an alert | at least one day, as the input's minimum of 1 and the onboarding clamp at src/pages/Onboarding.tsx:84 show | not executed | DaysInput.ParseIntOr1 (counterexample DaysInput.NegativeInputExample) | DaysInput.ClampDays |
