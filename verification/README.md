# Refrigerator dashboard — verified model of its logic

The dashboard watches a refrigerator controller. It reads the controller's
status, or simulates one when the controller cannot be reached. It raises
on-screen notifications when a reading crosses a limit. It keeps a filterable,
paginated event log that can be exported as CSV. A sign-in form with a
lockout and a role hierarchy guards it.

This project models the logic beneath the markup and proves what it
promises. Each module follows one source file:

| module | file | form |
|---|---|---|
| `Types` | `types.ts` | the shared records as datatypes |
| `Strings` | — | the JavaScript string operations the code relies on: ASCII `toLowerCase`, `includes`, lexical `<`, `split`, `join` |
| `Api` | `services/api.ts` | `ParseStatus` is a pure function. The simulator is a class `MockDevice` whose fields `mockTemp`/`cooling` are updated in place, proved against the pure `PhysicsStep`/`Reading`. |
| `SmartAlerts` | `hooks/useSmartAlerts.ts` | a class `AlertEngine` with the six latches as fields. Its `Step` method runs one `Check…` method per block of the effect body. It is proved against the pure `Transition`. |
| `Notifications` | `context/AlertsContext.tsx` | a class `AlertCenter` with the notification list as a `seq` field |
| `HistoryUtils` | `utils/historyUtils.ts` | the CSV text and the pagination arithmetic, as functions |
| `HistoryFilters` | `components/HistoryFilters.tsx` | the filter record, single-key update and "active" test, as functions |
| `History` | `pages/History.tsx` | the filter, statistics, export records and page-button window as functions. The page's events, filters and current page form a class `HistoryView`. |
| `AppContext` | `context/AppContext.tsx` | the permission check and stored-user reading as functions, and a class `AppState` for user and theme |
| `Login` | `pages/Login.tsx` | the pure `Submit`/`Tick` transitions and lemmas about them, and a class `LoginForm` whose methods are proved against them |

Temperatures and humidities are exact `real`s. Random draws, the
fresh-id source and browser storage contents are parameters.

## Model

| member | source | states |
|---|---|---|
| Api.ParseStatus | services/api.ts:4-17 | Each of the four pins is true iff its string is exactly "HIGH". Temperature, humidity, min/max, alert flag and time out of range are copied unchanged. |
| Api.ParseEncode | services/api.ts:4-17 | Parsing the "HIGH"/"LOW" encoding of a snapshot gives the snapshot back. |
| Api.EncodeParse | services/api.ts:8-11 | A reply whose pins are all "HIGH" or "LOW" is the encoding of its own parse, so no information is lost. |
| Api.UpdateTemperatureSettings | services/api.ts:100-103 | The settings stub reports success for every bound and value. |
| Api.FlipsOnlyAtThresholds | services/api.ts:25-31 | Cooling drops the baseline by 0.1 and idling raises it by 0.05. Cooling switches on only once the new baseline is at least 8.0, and off only once it is at most 2.0. |
| Api.InitialReachable | services/api.ts:20-21 | The start state (5.0, idle) satisfies the simulator invariant. |
| Api.StepPreservesReachable | services/api.ts:25-31 | The invariant is preserved: baseline in [2.0, 8.0] on the 0.05 grid, above 2.0 on the 0.1 grid while cooling, below 8.0 while idle. A flip lands exactly on 8.0 or 2.0. |
| Api.WarmsUpToThreshold | services/api.ts:28-30 | From 8.0 − 0.05·n idle, n steps reach exactly (8.0, cooling), with no flip before. |
| Api.CoolsDownToThreshold | services/api.ts:25-27 | From 2.0 + 0.1·n cooling, n steps reach exactly (2.0, idle), with no flip before. |
| Api.HysteresisCycle | services/api.ts:20-31 | From 5.0 idle, 60 steps reach (8.0, cooling) and 60 more reach (2.0, idle). From there the cycle has period 180 steps. |
| Api.Reading | services/api.ts:33-51 | The reported temperature lies in [baseline − 0.05, baseline + 0.05). Humidity lies in [58, 60). The relay equals the cooling flag. The alert holds iff the temperature exceeds 10.0, with 120 s out of range or 0. Power and door 2 are always OK. Door 1 is open iff its draw is ≤ 0.05. Limits are 2.0/8.0. |
| Api.SimulatorNeverAlerts | services/api.ts:20-51 | From any reachable state the reading lies in [1.95, 8.05), so the simulator never raises the temperature alert. |
| Api.MockDevice.constructor | services/api.ts:20-21 | The simulator starts at 5.0, idle, in a reachable state. |
| Api.MockDevice.GenerateMockData | services/api.ts:23-52 | The fields take one physics step. The result is the reading for the new state. Reachability is kept, and no alert is reported. |
| SmartAlerts.AlertsForTransition | hooks/useSmartAlerts.ts:13-99 | Within one snapshot's output, the alerts of each key are exactly what that key's block produces. The blocks do not interfere. |
| SmartAlerts.Edge | hooks/useSmartAlerts.ts:13-99 | The shape every block shares. The latch follows the condition, except that the relay latch, which is never released, stays set. At most one alert comes out, and only when the latch changes: the raise alert when it sets, the block's release alert (if any) when it clears. |
| SmartAlerts.KeyStep | hooks/useSmartAlerts.ts:13-99 | Each block emits at most one alert, only of its own key, and only when that key's latch changes. |
| SmartAlerts.Transition | hooks/useSmartAlerts.ts:9-100 | Every alert the effect emits belongs to a key whose latch it changes. |
| SmartAlerts.NullSnapshot | hooks/useSmartAlerts.ts:10 | A null status emits nothing and leaves every latch unchanged. |
| SmartAlerts.TemperatureEdges | hooks/useSmartAlerts.ts:13-28 | The latch becomes the alert flag. Rising emits one critical alert with no duration. Falling emits one info alert of 5000 ms. Otherwise nothing. |
| SmartAlerts.LowHumidityEdges | hooks/useSmartAlerts.ts:31-41 | Humidity below 30 emits one warning and latches. At 30 or more the latch clears silently. |
| SmartAlerts.HighHumidityEdges | hooks/useSmartAlerts.ts:43-52 | Humidity above 80 emits one warning and latches. At 80 or less the latch clears silently. |
| SmartAlerts.DoorEdges | hooks/useSmartAlerts.ts:55-70 | An open door emits one warning. Closing after that emits info of 3000 ms. |
| SmartAlerts.PowerEdges | hooks/useSmartAlerts.ts:73-88 | Power loss emits one critical alert. Recovery emits info of 5000 ms. |
| SmartAlerts.RelayEdges | hooks/useSmartAlerts.ts:91-99 | The relay latch is set by the first "on" and never cleared. Only that first "on" emits info of 3000 ms. |
| SmartAlerts.Idempotent | hooks/useSmartAlerts.ts:9-100 | Re-running the effect with the same status emits nothing and changes no latch. |
| SmartAlerts.RepeatedSnapshot | hooks/useSmartAlerts.ts:9-100 | Feeding one status n ≥ 1 times in a row has the effect of feeding it once. |
| SmartAlerts.EmissionOrder | hooks/useSmartAlerts.ts:13-99 | Alerts come out in block order (temperature, low and high humidity, door, power, relay), at most one per key. |
| SmartAlerts.AtMostFive | hooks/useSmartAlerts.ts:32-52 | Low and high humidity cannot fire together, so one snapshot emits at most five alerts. |
| SmartAlerts.CompressorAnnouncedOnce | hooks/useSmartAlerts.ts:91-99 | Over any stream of statuses, at most one "compressor on" alert is emitted, and none once the latch is set. The latch never clears. |
| SmartAlerts.AlertEngine.constructor | hooks/useSmartAlerts.ts:7 | A fresh engine has every latch clear. |
| SmartAlerts.AlertEngine.Step | hooks/useSmartAlerts.ts:9-100 | The new latches and the emitted alerts are exactly the transition of the old latches. All the lemmas above apply to it. |
| SmartAlerts.AlertEngine.CheckTemperature | hooks/useSmartAlerts.ts:13-28 | The temperature block changes only its latch and matches the key's edge detector. |
| SmartAlerts.AlertEngine.CheckLowHumidity | hooks/useSmartAlerts.ts:31-41 | The low-humidity block changes only its latch and matches the key's edge detector. |
| SmartAlerts.AlertEngine.CheckHighHumidity | hooks/useSmartAlerts.ts:43-52 | The high-humidity block changes only its latch and matches the key's edge detector. |
| SmartAlerts.AlertEngine.CheckDoor | hooks/useSmartAlerts.ts:55-70 | The door block changes only its latch and matches the key's edge detector. |
| SmartAlerts.AlertEngine.CheckPower | hooks/useSmartAlerts.ts:73-88 | The power block changes only its latch and matches the key's edge detector. |
| SmartAlerts.AlertEngine.CheckRelay | hooks/useSmartAlerts.ts:91-99 | The relay block changes only its latch and matches the key's edge detector. |
| Notifications.WithoutId | context/AlertsContext.tsx:38-40 | Removal keeps exactly the notifications with a different id and never grows the list. |
| Notifications.WithoutIdAppend | context/AlertsContext.tsx:38-40 | Removal distributes over concatenation, so survivors keep their order. |
| Notifications.RemoveUnknown | context/AlertsContext.tsx:39 | Removing an id that is not present leaves the list unchanged. |
| Notifications.RemoveTwice | context/AlertsContext.tsx:39 | Removing the same id twice equals removing it once. |
| Notifications.AddThenRemove | context/AlertsContext.tsx:24-40 | Adding under a fresh id and then removing that id restores the list. |
| Notifications.Expiry | context/AlertsContext.tsx:30-35 | A removal is scheduled iff the duration is present and non-zero, after exactly that delay. |
| Notifications.IdsBelowRemove | context/AlertsContext.tsx:38-40 | Removal keeps ids increasing and below the next id to hand out. |
| Notifications.AlertCenter.constructor | context/AlertsContext.tsx:22 | The list starts empty. |
| Notifications.AlertCenter.AddAlert | context/AlertsContext.tsx:24-36 | The new notification is appended under an id not in use. Earlier ones are untouched. The id is the next counter value and the counter advances, so an id is never handed out twice, even after removals. The scheduled removal is `Expiry` of the draft. |
| Notifications.AlertCenter.RemoveAlert | context/AlertsContext.tsx:38-40 | The list becomes the old one without that id. |
| Notifications.AlertCenter.ClearAll | context/AlertsContext.tsx:42-44 | The list becomes empty. |
| Strings.IncludesMeansOccurs | pages/History.tsx:41 | The substring search succeeds iff the text occurs at some position. |
| Strings.ToLower | pages/History.tsx:41 | Lower-casing keeps the length and folds A-Z character by character, leaving every other character alone. |
| Strings.BeforeFirstSpace | pages/History.tsx:47 | The result is a prefix with no space, and is either the whole text or followed by a space. |
| Strings.Split | pages/History.tsx:47 | A split always yields at least one piece, and no piece contains the separator. |
| Strings.LexLessTrichotomy | pages/History.tsx:48 | String `<` is a strict total order: two different strings are ordered exactly one way. |
| Strings.LexLessTransitive | pages/History.tsx:48 | String `<` is transitive. |
| Strings.SplitHead | pages/History.tsx:47 | The first piece of a split on spaces is the text before the first space. |
| Strings.SplitJoin | utils/historyUtils.ts:14-26 | Splitting a join on its separator gives back the pieces when no piece holds the separator. |
| HistoryUtils.Lookup | utils/historyUtils.ts:19 | A key yields a value iff it is one of the record's keys. |
| HistoryUtils.LookupFirst | utils/historyUtils.ts:19 | The value found is the one bound at the key's first occurrence. |
| HistoryUtils.Stringify | utils/historyUtils.ts:21 | A missing key prints as "undefined", text prints as itself, and a number prints as non-empty text with no comma, quote or line break, so it never needs quoting. |
| HistoryUtils.EncodeField | utils/historyUtils.ts:21-22 | Quotes are doubled. The field is wrapped in quotes iff the text holds a comma. Commas and line breaks are neither added nor removed. |
| HistoryUtils.EscapeQuotes | utils/historyUtils.ts:21 | Escaping never shortens the text and adds or removes no character other than the double quote. |
| HistoryUtils.UndoubleEscape | utils/historyUtils.ts:21 | Collapsing doubled quotes undoes the escaping. |
| HistoryUtils.FieldRoundTrip | utils/historyUtils.ts:21-22 | Every encoded field decodes back to its text. |
| HistoryUtils.CsvContent | utils/historyUtils.ts:5-8 | No CSV is produced exactly when there are no records. |
| HistoryUtils.Lines | utils/historyUtils.ts:16-25 | There is one line per record, in order, each the record's fields under the header keys. |
| HistoryUtils.CsvLines | utils/historyUtils.ts:11-26 | When no key or value holds a line break, the text splits into the header line (the first record's keys) followed by exactly one line per record, in order, with no trailing line. |
| HistoryUtils.CsvExample | utils/historyUtils.ts:14-26 | The record {a: 1, b: "x,y"} serialises to `a,b` then `1,"x,y"`. |
| HistoryUtils.TotalPages | utils/historyUtils.ts:42 | The page count is the least number of pages that holds all items. |
| HistoryUtils.Slice | utils/historyUtils.ts:47 | This is slice with clamped bounds: the exact sub-range inside the list, empty past its end. |
| HistoryUtils.PageItems | utils/historyUtils.ts:44-48 | Page p holds items (p−1)·n up to min(p·n, length), at most n of them. It is empty past the last page. |
| HistoryUtils.AllPages | utils/historyUtils.ts:42-48 | Concatenating pages 1..totalPages gives back exactly the item list. |
| HistoryUtils.PaginationExample | utils/historyUtils.ts:42-48 | 120 items at 50 per page give 3 pages, 20 items on page 3 and none on page 4. |
| HistoryFilters.HandleChange | components/HistoryFilters.tsx:21-23 | The chosen key now holds the new value. Every other key keeps its old one. |
| HistoryFilters.LastWriteWins | components/HistoryFilters.tsx:21-23 | Two changes to the same key: the later one wins. |
| HistoryFilters.ChangesCommute | components/HistoryFilters.tsx:21-23 | Changes to different keys commute. |
| HistoryFilters.ChangeToSame | components/HistoryFilters.tsx:21-23 | Setting a key to its current value gives back the same record. |
| HistoryFilters.HasActiveFilters | components/HistoryFilters.tsx:25 | Filters are active iff the record differs from the default (empty dates and text, ALL type and severity). |
| HistoryFilters.ChangeActivates | components/HistoryFilters.tsx:25 | Setting any key to a non-default value makes the filters active. |
| History.EventDate | pages/History.tsx:46-58 | The date part is the text before the first space, or the whole timestamp if it has none. |
| History.PassesIff | pages/History.tsx:29-61 | An event passes iff: the type matches or ALL; the severity matches or ALL; the search text is empty or occurs in the message, both lower-cased; the date is ≥ the start date when set; the date is ≤ the end date when set. |
| History.SingleDay | pages/History.tsx:46-58 | With equal start and end dates, exactly the events of that day pass. |
| History.SearchIgnoresCase | pages/History.tsx:41 | Lower-casing the search text does not change which events pass. |
| History.DefaultPasses | pages/History.tsx:14-20 | The default filters, which reset restores, pass every event. |
| History.ClearingWidens | pages/History.tsx:29-61 | Returning any one filter to its default can only let more events through. |
| History.FilterEvents | pages/History.tsx:28-62 | An event is in the result iff it is in the log and passes, and the result never grows. |
| History.FilterSubsequence | pages/History.tsx:29 | The result is an order-preserving subsequence of the log. |
| History.FilterAppend | pages/History.tsx:29 | Filtering a concatenation filters each part. |
| History.FilterDefault | pages/History.tsx:14-20 | Under the default filters the log comes back whole. |
| History.FilterIdempotent | pages/History.tsx:28-62 | Filtering twice with the same record equals filtering once. |
| History.Minimum | pages/History.tsx:75-78 | The minimum is one of the values and no value is below it. |
| History.Maximum | pages/History.tsx:76-79 | The maximum is one of the values and no value is above it. |
| History.SumBetween | pages/History.tsx:74-77 | The sum of n values lies between n times any lower bound and n times any upper bound. |
| History.Mean | pages/History.tsx:74-77 | The mean lies between the minimum and the maximum. |
| History.ComputeStats | pages/History.tsx:69-81 | Stats are absent iff there is no data. Otherwise min ≤ mean ≤ max for both temperature and humidity. |
| History.StatsExtremes | pages/History.tsx:71-79 | Each reported minimum and maximum is one of the samples and bounds all of them. |
| History.ExportRecord | pages/History.tsx:84-89 | Each exported record has exactly the keys Data/Hora, Tipo, Mensagem, Severidade, in that order. Without line breaks in its texts, none of its values holds one. |
| History.ExportColumns | pages/History.tsx:84-89 | Each header finds the event's own field: Data/Hora the timestamp, Tipo the type name, Mensagem the message, Severidade the severity name. |
| History.ExportRecords | pages/History.tsx:84-89 | There is one record per filtered event, in order. |
| History.ExportLines | pages/History.tsx:83-92 | Exporting non-empty events gives the line "Data/Hora,Tipo,Mensagem,Severidade" followed by exactly one line per event, in order. |
| History.ExportNothing | pages/History.tsx:83-92 | Exporting no events produces no file. |
| History.PageButtons | pages/History.tsx:271-276 | At most min(5, totalPages) buttons, for consecutive pages, all within [1, totalPages]. They include the current page whenever it exists. |
| History.Window | pages/History.tsx:271-276 | The window is the consecutive run from its first page, with every page past the last dropped. |
| History.CentredWindow | pages/History.tsx:273-275 | Past page 3 of more than 5 pages, and two pages away from the end, the window is centred on the current page. |
| History.PreviousPage | pages/History.tsx:263 | Previous never goes below page 1 and never moves forward. |
| History.NextPage | pages/History.tsx:295 | Next never goes past the last page and never moves back. |
| History.NextThenPrevious | pages/History.tsx:263-295 | Next then Previous returns to the page, except on the last page. |
| History.PreviousThenNext | pages/History.tsx:263-295 | Previous then Next returns to the page, except on the first page. |
| History.HistoryView.constructor | pages/History.tsx:11-20 | The page starts with no events, default filters and page 1. |
| History.HistoryView.LoadEvents | pages/History.tsx:22-25 | The arriving events replace the log. |
| History.HistoryView.ChangeFilters | pages/History.tsx:169 | The new record replaces the filters. The current page is left as it is. |
| History.HistoryView.ResetFilters | pages/History.tsx:94-103 | Default filters and page 1. The table then shows the first 50 events of the whole log. |
| History.HistoryView.GoToPrevious | pages/History.tsx:260-263 | Shown only with more than one page. The page becomes the clamped previous page and stays ≥ 1. |
| History.HistoryView.GoToNext | pages/History.tsx:260-295 | Shown only with more than one page. The page becomes the clamped next page, within [1, totalPages]. |
| History.HistoryView.GoToPage | pages/History.tsx:271-281 | A click on a shown button moves to that page, which lies within [1, totalPages]. |
| AppContext.Rank | context/AppContext.tsx:55-59 | Every listed role has rank 1 to 3. |
| AppContext.HasPermission | context/AppContext.tsx:52-62 | Permission needs a signed-in user with a listed role. For such a user it holds iff their rank reaches the required one. |
| AppContext.NoUserNoPermission | context/AppContext.tsx:53 | Nobody signed in: nothing is permitted. |
| AppContext.OwnRole | context/AppContext.tsx:55-61 | A user holds their own role's permission. |
| AppContext.AdminHasAll | context/AppContext.tsx:55-61 | An admin holds every permission. |
| AppContext.PermissionsNested | context/AppContext.tsx:55-61 | A role's permission implies that of every lower role. |
| AppContext.VisualizadorOnlyViews | context/AppContext.tsx:55-61 | A visualizador holds no permission above its own. |
| AppContext.Toggled | context/AppContext.tsx:47-50 | Toggling always changes the theme. |
| AppContext.ToggleTwice | context/AppContext.tsx:47-50 | Toggling twice restores the theme. |
| AppContext.ReadRole | context/AppContext.tsx:36 | The role read back has the stored text. |
| AppContext.LoadUser | context/AppContext.tsx:34-39 | A user is restored iff a non-empty name is stored. A missing or empty role reads as visualizador. Otherwise the stored role text is kept. |
| AppContext.StoreThenLoad | context/AppContext.tsx:34-75 | Restoring what `setUser` stored gives that user back, for a non-empty name and a listed role. Clearing the user leaves nothing to restore. |
| AppContext.AppState.constructor | context/AppContext.tsx:24-25 | Nobody is signed in and the theme is dark. |
| AppContext.AppState.RestoreUser | context/AppContext.tsx:34-39 | A stored non-empty name signs that user in. Otherwise the user is unchanged. |
| AppContext.AppState.SetUser | context/AppContext.tsx:66-67 | The user is replaced, and cleared by None. |
| AppContext.AppState.SetTheme | context/AppContext.tsx:42-45 | The theme is replaced. |
| AppContext.AppState.ToggleTheme | context/AppContext.tsx:47-50 | The theme becomes the other one. |
| Login.IsValid | pages/Login.tsx:34-62 | A pair is valid iff it is exactly one of the four listed pairs. |
| Login.Submit | pages/Login.tsx:41-84 | A submission never edits the typed name. It asks for an effect only on an unlocked form with a name and a password. The failure count stays, grows by one, or resets on a sign-in. A fresh lock comes only with at least three failures and 30 seconds to run. |
| Login.Tick | pages/Login.tsx:22-32 | A tick changes only the lock fields and never locks. While the lock is still held afterwards, it has counted down by exactly one. An unlocked form is unchanged. |
| Login.InitialConsistent | pages/Login.tsx:10-18 | The form starts unlocked with no failures, satisfying the lock invariant. |
| Login.SubmitConsistent | pages/Login.tsx:41-84 | A submission keeps the invariant: a lock is held only after three failures, with 1 to 30 seconds left. |
| Login.TickConsistent | pages/Login.tsx:22-32 | A tick keeps the invariant: a held lock always has 1 to 30 seconds left. |
| Login.LockedIgnores | pages/Login.tsx:43 | While locked, a submission changes nothing and signs no one in. |
| Login.MissingInput | pages/Login.tsx:45-55 | A blank name (after trimming) or an empty password sets the matching error. It does not count an attempt. |
| Login.SignInIff | pages/Login.tsx:60-66 | A complete submission signs in iff the pair is listed. The user then gets role operador and the count returns to 0. |
| Login.WrongPair | pages/Login.tsx:68-81 | A wrong pair adds one failure and clears the password. The form locks for 30 ticks iff this makes three or more failures. Otherwise the error is hidden later. |
| Login.UntrimmedName | pages/Login.tsx:45-62 | A name with a trailing space passes the blank check but never matches the list. |
| Login.LockExpires | pages/Login.tsx:22-32 | A lock with t ≥ 1 seconds left is held, counting down, through the first t − 1 ticks. Tick t brings the count to 0 and releases the lock, and nothing else changes. |
| Login.RelocksAtOnce | pages/Login.tsx:69-78 | The count survives the lock's expiry, so the next wrong pair locks the form again at once. |
| Login.LoginForm.constructor | pages/Login.tsx:10-18 | The form starts in the initial state. |
| Login.LoginForm.EditUsername | pages/Login.tsx:133-134 | Typing replaces the name, only while not loading or locked. |
| Login.LoginForm.EditPassword | pages/Login.tsx:149-150 | Typing replaces the password, only while not loading or locked. |
| Login.LoginForm.HandleLogin | pages/Login.tsx:41-84 | The fields and the requested effect are exactly those of `Submit`, so every lemma about `Submit` holds of it. |
| Login.LoginForm.OnTick | pages/Login.tsx:22-32 | The fields take exactly one `Tick`. |
| Login.LoginForm.OnErrorTimer | pages/Login.tsx:80 | The delayed reset hides the error and changes nothing else. |

## Left out

- Fetching the controller's status over the network, with its abort timeout and fallback (services/api.ts:76-98), is left out. So is the clock- and sine-based `fetchHistory` (services/api.ts:54-66). The event log and history samples arrive as parameters (`HistoryView.LoadEvents`, `ComputeStats`).
- Real timers are left out. The auto-removal timer of a notification is only the delay `AddAlert` returns. The 2-second error reset of the sign-in form is the `ClearErrorLater` effect and `OnErrorTimer`. The 800 ms pause before the credential check is folded into one atomic submission. The one-second countdown is the abstract `Tick`. The effect's re-run that releases the lock as soon as the count reaches 0 is part of the tick that reaches 0.
- Browser storage is not modelled. Its contents are `RestoreUser`'s parameters, and what `setUser` would write is the function `Stored`. Restoring the saved theme at start-up (context/AppContext.tsx:28-32) is not modelled.
- The download side of the export (Blob, link, `alert()`; utils/historyUtils.ts:6, 29-38) and the file name are left out.
- Message texts and titles of notifications are left out, because they are formatted floats. An alert is its kind, level and duration.
- `toFixed` rounding of the statistics is left out: the model reports the exact mean, minimum and maximum.
- Floating point is left out: the simulator runs on exact reals. In IEEE doubles, repeated `- 0.1` and `+ 0.05` drift off the grid. The thresholds may then be met one step later or earlier than in `HysteresisCycle`.
- Notification ids are a counter, not the clock plus a random number; any fresh-id oracle gives the same list behaviour.
- `toLowerCase` and `trim` are modelled on ASCII only (`Strings.ToLower`, `Login.IsSpace`). Strings are sequences of characters, not UTF-16 code units.
- `HistoryUtils.PageItems` requires a page ≥ 1. JavaScript's negative slice indices for page ≤ 0 are not modelled, and the page state never goes below 1.
- CSV values are text or integers. Non-integer numbers and other value kinds are not modelled (`HistoryUtils.Value`).
- `HistoryUtils.DecodeField` reads back one field, not a whole line. Fields that hold commas make a line ambiguous to split, and no reader exists in the source.
- Rendering, routing and the remaining pages and widgets (App.tsx, Dashboard, Settings, Welcome, Layout, Card, SimpleChart, ControlPanelWidget, the theme applier hook) are not part of this model.
