# VisaFlow core, modelled in Dafny

VisaFlow tracks how long a traveller may still stay in a country on a visa. It
shows a countdown and a status for the active trip and alerts the traveller
before the exit date. It has a web client (one React file), a native client (an
Expo app whose state lives in a context provider) and a FastAPI backend over
two MongoDB collections.

This project models the deterministic logic under those screens:

- the status ladders: colour and label for a number of days left;
- the countdown arithmetic: days left, progress through the stay, the trial's days left, the form's duration label;
- the alert scheduler and its two ladders: 14/7/3/1/0 days on the web, 14/7/3/1 days on native;
- both clients' session stores: user, trips and onboarding step, updated after each backend call;
- the add-trip form and the requirements screen's verdict handling;
- both onboarding step machines;
- the country pickers' search;
- the backend handlers over an abstract user map and trip list, including the visa-requirement lookup.

How the outside world appears in the model:

- Dates are whole milliseconds since the epoch, read in UTC.
- "Now", the stored user id, notification permissions and every backend call's outcome are parameters.
- A call's outcome is `Ok(body)`, `NotOk` (a non-2xx status) or `Threw`.
- The alerts handed to the platform are recorded as a list of `(trigger, title, body)` values.

Files and modules, one module per file:

| file | module | models |
|---|---|---|
| seqs.dfy | Seqs | `Array.prototype.filter` / `find`, first index, result limits, sub-lists |
| text.dfy | Text | `toLowerCase` (ASCII), `includes`, `trim`, `parseInt`, decimal rendering |
| status.dfy | Status | colors.js `getStatusColor` / `getStatusText` (repeated verbatim in App.js) |
| countdown.dfy | Countdown | `calculateDaysLeft`, `calculateProgress`, `getTrialDaysLeft`, `calculateDuration` |
| records.dfy | Records | user and trip records, call outcomes, active-trip selection, removal by id |
| alerts.dfy | Alerts | both `scheduleNotifications` loops and their ladders |
| backend.dfy | Backend | server.py models and handlers; the handlers are a `Database` class |
| nativeapp.dfy | NativeApp | AppContext.js `AppProvider` as a `Session` class |
| webapp.dfy | WebApp | App.js `AppProvider` plus `MainApp`'s screen choice, as a `Session` class |
| onboarding.dfy | Onboarding | onboarding.js: the step machine and the profile form |
| picker.dfy | Picker | CountryPicker.js and the web `CountryDropdown` |
| tripform.dfy | TripForm | App.js `AddTripModal` and the requirements screen's verdict logic |

A zero-length window (exit == entry) divides by zero: progress is 100 after exit,
0 before it, and NaN at the instant of entry. `Countdown.Progress` models this
with a `JsNumber` that can be NaN.

## Model

| member | source | states |
|---|---|---|
| Status.StatusColor | frontend/constants/colors.js:15-20 | Total over all integers. Exactly one of the four palette colours. Success iff d ≥ 14, warning iff 7 ≤ d < 14, urgent iff 3 ≤ d < 7, critical iff d < 3. |
| Status.StatusText | frontend/constants/colors.js:22-28 | Total. Exactly one of the five labels, each tier an iff with inclusive lower bounds; "EXPIRED TODAY" iff d < 1. |
| Status.ColorMonotone | frontend/constants/colors.js:15-20 | More days left never gives a more severe colour. |
| Status.TextMonotone | frontend/constants/colors.js:22-28 | More days left never gives a more severe label. |
| Status.ColorMatchesText | frontend/src/App.js:118-131 | The two ladders agree: the two most severe labels both have the critical colour; the other three labels map one-to-one onto success, warning and urgent. |
| Countdown.DaysLeft | frontend/components/TripCard.js:7-12 | The result d is the ceiling of (exit − now) / 86 400 000: DayMs·(d−1) < exit − now ≤ DayMs·d. |
| Countdown.CeilDivUnique | frontend/components/TripCard.js:11 | `Math.ceil` of a quotient is the unique integer with that characterisation. |
| Countdown.DaysLeftAtBoundaries | frontend/components/TripCard.js:7-12 | exit − now in (0, 1 day] gives 1 day left; in (−1 day, 0] it gives 0. |
| Countdown.DaysLeftAtMost | frontend/src/App.js:102-107 | At most k days are left iff exit is at most k whole days after now. |
| Countdown.DaysLeftMonotone | frontend/src/App.js:102-107 | A later exit never leaves fewer days. |
| Countdown.ExitDateCritical | frontend/components/TripCard.js:68 | The exit date is highlighted (`daysLeft <= 7`) iff exit − now ≤ 7 days. |
| Countdown.Clamp | frontend/components/TripCard.js:20 | `min(100, max(0, x))` lies in [0, 100] and is x itself when x already does. |
| Countdown.Progress | frontend/components/TripCard.js:14-21 | Finite results lie in [0, 100]. The result is NaN iff exit == entry == now (0/0). Inside a proper window it is exactly (now − entry) / (exit − entry) × 100. |
| Countdown.ProgressAtEnds | frontend/src/App.js:109-116 | For exit > entry: exactly 0 when now ≤ entry, exactly 100 when now ≥ exit. |
| Countdown.ProgressMonotone | frontend/components/TripCard.js:14-21 | For a fixed window with exit > entry, progress never decreases as now increases. |
| Countdown.TrialDaysLeft | frontend/src/App.js:1652-1659 | 7 without a trial start. Otherwise max(0, days left until start + 7 days), never negative. |
| Countdown.TrialDaysLeftBounds | frontend/src/App.js:1652-1659 | 0 iff now ≥ start + 7 days. At most 7 once the trial has started. |
| Countdown.Duration | frontend/src/App.js:1357-1365 | Non-empty iff both dates are set and exit > entry. Then "<⌈(exit − entry)/day⌉> days". |
| Countdown.DurationReadsBack | frontend/src/App.js:1357-1365 | Parsing the label's number gives back the number of started days. |
| Records.ActiveTrip | frontend/src/App.js:704 | None iff no trip is active. Otherwise an active trip such that every earlier trip is not active. |
| Records.ActiveTripUnique | frontend/src/App.js:704 | With exactly one active trip, that trip is selected. |
| Records.WithoutTrip | frontend/context/AppContext.js:157 | Keeps exactly the trips whose id differs: none with the id remain, and every other trip remains. |
| Records.WithoutTripKeepsOrder | frontend/src/App.js:2214 | The kept trips are an order-preserving sub-list. Their number is the count of other-id trips. No trip with the id means no change. |
| Alerts.TriggerTime | frontend/context/AppContext.js:179-181 | The trigger lies on the day `days` days before exit's day, at exactly 09:00. |
| Alerts.Pending | frontend/src/App.js:2235-2246 | At most one alert per rung. Every alert's trigger is strictly after now. |
| Alerts.Schedule | frontend/context/AppContext.js:164-194 | The loop. Nothing without permission; otherwise exactly the pending alerts of the ladder, in ladder order. |
| Alerts.PendingSound | frontend/context/AppContext.js:178-193 | Every alert comes from some rung, with that rung's title, body and 09:00 trigger. |
| Alerts.PendingComplete | frontend/context/AppContext.js:183-192 | Every rung whose trigger is after now yields its alert. A trigger is dropped only if it has passed. |
| Alerts.WebLadder | frontend/src/App.js:2227-2233 | Five rungs at 14, 7, 3, 1 and 0 days, all titled "VisaFlow Alert". Each body ends in " - " and the country. The titles and bodies are the source's strings. |
| Alerts.NativeLadder | frontend/context/AppContext.js:171-176 | Four rungs at 14, 7, 3 and 1 days. Each body starts "Your visa for " and the country. The titles and bodies are the source's strings. |
| Alerts.LaddersChronological | frontend/src/App.js:2227-2246 | Both clients' schedules come out in strictly increasing trigger order. |
| Alerts.PendingChronological | frontend/src/App.js:2227-2233 | A ladder with strictly decreasing days yields alerts in strictly increasing trigger order. |
| Alerts.LadderDays | frontend/context/AppContext.js:171-176 | The native ladder's days are 14, 7, 3, 1 and never fire on the exit day itself. The web ladder's days are 14, 7, 3, 1, 0; its last rung fires at 09:00 on the exit day. |
| Alerts.NativeExampleAllFuture | frontend/context/AppContext.js:171-192 | Exit 2025-06-30, now 2025-06-01: four alerts, at 09:00 on June 16, 23, 27 and 29. |
| Alerts.NativeExamplePastDropped | frontend/context/AppContext.js:183 | Same exit, now 2025-06-20: the 14-day alert is dropped and the other three remain. |
| Backend.NewUser | backend/server.py:30-40 | Defaults of a new user: no name or nationality, notifications on, onboarding not completed, subscription "trial", trial started and created now. |
| Backend.ApplyUpdate | backend/server.py:274-278 | Each sent field is set and each unsent field keeps its value. id, trial start and creation time never change. |
| Backend.ApplyUpdateLaws | backend/server.py:274 | An update with nothing sent is the identity. Applying an update twice equals applying it once. |
| Backend.TotalDays | backend/server.py:289-291 | `(exit − entry).days` rounds down: DayMs·d ≤ exit − entry < DayMs·(d+1), negative windows included. |
| Backend.TotalDaysVersusCeiling | backend/server.py:291 | The server's day count equals the client's ceiling for whole days and is one less otherwise. |
| Backend.NewTrip | backend/server.py:293-302 | The stored trip copies the request, is active, has total_days = TotalDays, and has 0 extensions when none are sent. |
| Backend.CreateTripAcceptsReversedDates | backend/server.py:287-291 | No server-side date check: exit before entry is stored with negative total_days. |
| Backend.PairKey | backend/server.py:330 | The key is nationality code, "-", destination code, and both parts can be read back from it. |
| Backend.PairKeyInjective | backend/server.py:330 | Codes without a dash give distinct keys to distinct pairs. |
| Backend.CheckVisaRequirements | backend/server.py:328-349 | Found iff the key is in the table. A hit returns the row's fields; a miss returns verdict "unknown", the fixed message and today's date. Both echo the codes. |
| Backend.CheckVisaExamples | backend/server.py:332-349 | US→TH is found (visa_free, 30 days). TH→US is not found: the lookup is directional. |
| Backend.Database.constructor | backend/server.py:258-263 | Both collections start empty. |
| Backend.Database.CreateUser | backend/server.py:258-263 | Inserts a defaulted user under the fresh id and changes nothing else. |
| Backend.Database.GetUser | backend/server.py:265-270 | The stored user, or 404 "User not found". |
| Backend.Database.UpdateUser | backend/server.py:272-283 | 400 when nothing is sent (checked before the id). 404 for an unknown id. Otherwise the stored user becomes ApplyUpdate of it and is returned. Trips are untouched. |
| Backend.Database.CreateTrip | backend/server.py:286-306 | Appends NewTrip at the end of the collection; users are untouched. |
| Backend.Database.GetUserTrips | backend/server.py:308-311 | Exactly the first min(100, n) of the user's n active trips, in stored order. |
| Backend.Database.DeleteTrip | backend/server.py:313-318 | 404 iff no trip has the id, and nothing changes then. Otherwise exactly the first trip with the id is removed and the rest stay in order. |
| Backend.Database.CompleteTrip | backend/server.py:320-325 | 404 iff no trip has the id. Otherwise exactly the first trip with the id becomes completed and nothing else changes. |
| NativeApp.OnboardingBody | frontend/context/AppContext.js:76-81 | The PATCH body carries the three arguments in order and always onboarding_completed = true. |
| NativeApp.Session.constructor | frontend/context/AppContext.js:19-23 | No user, no trips, step 0, loading, no confetti. |
| NativeApp.Session.InitializeUser | frontend/context/AppContext.js:30-56 | The user is set only with a truthy stored id and an ok user fetch. Trips are set only if the trips fetch is also ok. Step 4 requires a completed user and a trips call that did not throw. Loading is false on every path. |
| NativeApp.Session.TriggerConfetti | frontend/context/AppContext.js:58-61 | Shows the confetti and changes nothing else. |
| NativeApp.Session.CompleteOnboarding | frontend/context/AppContext.js:63-95 | The PATCH is sent iff the POST is ok. User, stored id, step 4 and confetti change iff both calls are ok. Onboarding_completed is always true in the body. |
| NativeApp.Session.UpdateUser | frontend/context/AppContext.js:97-114 | No call without a user. Otherwise the request carries the user's id and the updates, and an ok response replaces the user. |
| NativeApp.Session.AddTrip | frontend/context/AppContext.js:116-148 | Undefined and no change without a user. True iff the response is ok: one trip appended at the end, confetti iff the list was empty, the native ladder scheduled iff permission is "granted". False with nothing changed otherwise. |
| NativeApp.Session.DeleteTrip | frontend/context/AppContext.js:150-162 | On ok, removes exactly the trips with that id, keeping order; otherwise no change. |
| NativeApp.Session.Logout | frontend/context/AppContext.js:217-222 | Stored id removed, user null, trips empty, step 0. |
| NativeApp.AddThenDeleteRestores | frontend/context/AppContext.js:133 | Adding a trip with a new id and then deleting that id restores the list. |
| WebApp.ScreenFor | frontend/src/App.js:2297-2352 | MainApp's screen for (loading, step). |
| WebApp.ScreenForSteps | frontend/src/App.js:2330-2349 | Loading wins. Otherwise: step 0 Welcome, step 1 Notification, steps 2 and 3 both Nationality, and main app iff step ≥ 4 or step < 0. |
| WebApp.Session.constructor | frontend/src/App.js:2114-2119 | No user, no trips, step 0, loading, tracker tab, modal closed with no prefill. |
| WebApp.Session.InitUser | frontend/src/App.js:2122-2147 | The user is set iff there is a truthy stored id and the user fetch is ok. Trips and step 4 also need the trips fetch to succeed: any failure throws. Loading ends on every path. |
| WebApp.Session.CompleteOnboarding | frontend/src/App.js:2150-2169 | The PATCH (code, name, boolean flag, completed) is sent iff the POST succeeds. User, stored id and step 4 change iff both succeed. |
| WebApp.Session.UpdateUser | frontend/src/App.js:2172-2181 | No call without a user. A successful response replaces the user. |
| WebApp.Session.AddTrip | frontend/src/App.js:2184-2208 | No-op without a user or on failure. On success: the trip is appended, the modal closes and clears its prefill, the tracker tab opens, confetti iff the list was empty, and the web ladder is registered iff the API exists and permission is "granted". |
| WebApp.Session.DeleteTrip | frontend/src/App.js:2211-2218 | On success, removes exactly the trips with that id, keeping order; on failure, no change. |
| WebApp.Session.Logout | frontend/src/App.js:2250-2255 | Stored id removed, user null, trips empty, step 0. |
| WebApp.Session.SetAddTripModal | frontend/src/App.js:2372-2398 | Opening empty, opening prefilled and closing set exactly the modal state. |
| WebApp.Session.WelcomeNext | frontend/src/App.js:2331-2333 | "Get Started" moves to step 1. Nothing else changes. |
| WebApp.Session.NotificationSkip | frontend/src/App.js:2334-2340 | "Skip for now" moves to step 2. Nothing else changes, the notifications choice included. |
| WebApp.Session.NotificationEnable | frontend/src/App.js:522-528 | Without the API: step 2. With an answer: the choice is (answer == "granted") and step 2. A rejected request escapes the handler, so nothing changes. No other field changes. |
| WebApp.Session.NationalityComplete | frontend/src/App.js:603-608 | Only with a nationality: onboarding is completed with MainApp's notifications choice and the confetti fires whatever the calls return. When both calls succeed, the patched user, the new id and step 4 are kept. Nothing else changes. |
| WebApp.ActiveTripAfterAdd | frontend/src/App.js:704 | Appending a trip never changes an existing active trip. With none active, the new trip is selected iff it is active. |
| Onboarding.ProfileValid | frontend/app/onboarding.js:78 | The profile is valid when the trimmed first name is non-empty and a nationality is chosen. |
| Onboarding.ProfileValidIff | frontend/app/onboarding.js:78 | Valid iff a nationality is chosen and the first name has a non-whitespace character. |
| Onboarding.ProfileSetup.constructor | frontend/app/onboarding.js:74-76 | The three fields start empty. |
| Onboarding.ProfileSetup.SetFirstName | frontend/app/onboarding.js:109 | Sets only the first name. |
| Onboarding.ProfileSetup.SelectNationality | frontend/app/onboarding.js:120-123 | Keeps the picked code and name. |
| Onboarding.ProfileSetup.HandleComplete | frontend/app/onboarding.js:80-84 | Forwards iff valid, passing the trimmed first name (non-empty, not starting with whitespace), the code and the name. |
| Onboarding.ForwardedAsWritten | frontend/app/onboarding.js:150 | As written, completeOnboarding's parameters receive the first name, the code and the name, in that order. The flag is dropped. |
| Onboarding.ForwardedIntended | frontend/context/AppContext.js:63 | The intended arguments are the code, the name and the flag. |
| Onboarding.AsWrittenSendsFirstNameAsCode | frontend/app/onboarding.js:150 | For "Ana" from "BR"/"Brazil", the PATCH has nationality_code "Ana", nationality "BR" and notifications_enabled the string "Brazil". |
| Onboarding.IntendedSendsProfile | frontend/context/AppContext.js:76-81 | With the intended arguments, the PATCH carries the chosen code, the name and the boolean choice. |
| Onboarding.AsWrittenDiffers | frontend/app/onboarding.js:150 | The two calls differ for every profile whose first name is not its code. |
| Onboarding.StepsMoveForward | frontend/app/onboarding.js:162-173 | Every button on a step's screen leads exactly one step forward, to a different screen, never back to Welcome. |
| Onboarding.Flow.constructor | frontend/app/onboarding.js:144-146 | Step 0, notifications off, no confetti. |
| Onboarding.Flow.PressGetStarted | frontend/app/onboarding.js:164 | "Get Started" goes to step 1. |
| Onboarding.Flow.PressSkip | frontend/app/onboarding.js:169 | "Skip for now" goes to step 2 and keeps the choice. |
| Onboarding.Flow.PressEnable | frontend/app/onboarding.js:41-49 | Step 2 whether permission is granted, denied or the request throws. The choice becomes true only when the status equals "granted", and is unchanged on a throw. |
| Onboarding.Flow.HandleComplete | frontend/app/onboarding.js:149-158 | As written: the session gets the shifted arguments (`sent` has the first name as nationality code). Confetti shows either way. The session's user, stored id, step 4 and confetti change only when both calls succeed, so a rejected PATCH leaves them as they were. Its trips, loading flag and scheduled alerts never change. |
| Onboarding.Flow.HandleCompleteIntended | frontend/context/AppContext.js:63-81 | Corrected: the session gets the code, the name and the boolean choice. The session changes as in HandleComplete. |
| Picker.Matches | frontend/components/CountryPicker.js:22-26 | A country matches iff the lowercased search occurs at some position of its lowercased name or code. An empty search matches every country. A match is never longer than the name or the code. |
| Picker.FilteredCountries | frontend/components/CountryPicker.js:22-26 | Exactly the countries whose lowercased name or code contains the lowercased search. The same filter is at App.js:308-312. |
| Picker.FilteredCountriesShape | frontend/components/CountryPicker.js:22-26 | An order-preserving sub-list with one entry per matching country. An empty search returns the whole list. |
| Picker.FilterIgnoresCase | frontend/src/App.js:308-312 | A search and its lowercase form select the same countries. |
| Picker.SelectedCountry | frontend/components/CountryPicker.js:20 | None iff no code equals value. Otherwise the first country with that code. |
| Picker.SelectedAfterSelect | frontend/src/App.js:314 | In a list with distinct codes, looking up a listed country's code finds that country. |
| Picker.NativePicker.constructor | frontend/components/CountryPicker.js:17-18 | Closed, empty search. |
| Picker.NativePicker.Press | frontend/components/CountryPicker.js:38 | Opens unless disabled. A disabled picker never changes the modal. |
| Picker.NativePicker.SetSearch | frontend/components/CountryPicker.js:76 | Sets the search only. |
| Picker.NativePicker.Close | frontend/components/CountryPicker.js:56 | Closes the modal and keeps the search. |
| Picker.NativePicker.Select | frontend/components/CountryPicker.js:28-32 | Reports (code, name), closes the modal and clears the search. |
| Picker.WebDropdown.constructor | frontend/src/App.js:305-306 | Closed, empty search. |
| Picker.WebDropdown.Press | frontend/src/App.js:321 | Toggles unless disabled; disabled changes nothing. |
| Picker.WebDropdown.SetSearch | frontend/src/App.js:364 | Sets the search only. |
| Picker.WebDropdown.Select | frontend/src/App.js:383-385 | Reports (code, name), closes the list and clears the search. |
| TripForm.Validate | frontend/src/App.js:1367-1378 | Valid iff country code, visa type and both dates are set and exit > entry. Valid iff no message. Each field has a message iff it is missing, with its exact text. The exit message is "Exit date must be after entry date" when both dates are set and exit ≤ entry. |
| TripForm.ExtensionsFromInput | frontend/src/App.js:1589 | Always in [0, 9]. NaN gives 0. Otherwise the parsed value clamped to [0, 9]. |
| TripForm.ExtensionsOfTypedNumber | frontend/src/App.js:1589 | Typing n gives min(n, 9). Typing −n gives 0. |
| TripForm.ExtensionsOfNonNumber | frontend/src/App.js:1589 | Text with no digit gives 0. |
| TripForm.AddTripModal.constructor | frontend/src/App.js:1339-1346 | Fields come from the prefill when there is one and are empty otherwise. Extensions start at 0 and there are no errors. |
| TripForm.AddTripModal.ApplyPrefill | frontend/src/App.js:1347-1355 | A new prefill overwrites the five prefilled fields and keeps the rest. |
| TripForm.AddTripModal.SetExtensions | frontend/src/App.js:1589 | Stores the clamped value, in [0, 9]. |
| TripForm.AddTripModal.Save | frontend/src/App.js:1380-1398 | Saves iff the form is complete. The saved trip carries the fields and the extensions, and the fields reset. Otherwise the fields stay and the errors are non-empty. Either way the errors are exactly validate's messages for the fields as they were. |
| TripForm.VisaTypeFor | frontend/src/App.js:987-990 | Always one of VISA_TYPES and never "Business Visa". visa_free, evisa and visa_on_arrival map to their own types; anything else, including no result, gives "Tourist Visa". |
| TripForm.AddToTracker | frontend/src/App.js:981-998 | Nothing is handed on iff a date is missing. Otherwise the destination, VisaTypeFor(verdict) and the dates. |
| TripForm.PrefillNeedsOnlyDates | frontend/src/App.js:992-998 | A prefill with a destination code saves iff exit > entry. |
| TripForm.VerdictDisplay | frontend/src/App.js:1001-1014 | None iff there is no result. A verdict in the table shows its entry; any other verdict shows the "unknown" entry. |
| TripForm.VerdictDisplayFallback | frontend/src/App.js:1013 | "Requirements Unknown" is shown iff the verdict is not one of the five other keys. |
| TripForm.VerdictAfterCheck | frontend/src/App.js:959-979 | Unchanged without both codes. Otherwise the backend's verdict on success and "error" on any failure. |
| TripForm.FailedCheckShowsError | frontend/src/App.js:970-977 | A failed check shows the "Error" card and proposes "Tourist Visa". |
| Text.Contains | frontend/components/CountryPicker.js:24-25 | `includes` is true iff the needle occurs at some position. |
| Text.Trim | frontend/app/onboarding.js:78 | `trim()` is a block of the string with only whitespace before and after it, and no whitespace at either end of the block. |
| Text.TrimEmptyIff | frontend/app/onboarding.js:78 | `trim()` is empty iff every character is ECMAScript whitespace. |
| Text.ParseInt | frontend/src/App.js:1589 | `parseInt` is NaN iff, after leading whitespace and an optional sign, no digit follows. |
| Text.ParseIntOfNatToString | frontend/src/App.js:1589 | `parseInt` of a rendered natural number gives it back. |
| Seqs.FilterIsSubsequence | frontend/src/App.js:2214 | A filter keeps an order-preserving sub-list. |
| Seqs.FirstIndexAppend | frontend/src/App.js:704 | The first match in a + b is a's first match, or else b's first match shifted by \|a\|. |

## Left out

- Network I/O, FastAPI routing, Mongo, CORS and logging. Each call's outcome is a parameter, and the backend's collections are a map of users and a list of trips.
- The request body of `addTrip` (`{...tripData, user_id}`) is not modelled on the client side. `Backend.Database.CreateTrip` models the server's use of it.
- The two clients' `checkVisaRequirements` calls are pass-throughs of the backend answer. The lookup itself is `Backend.CheckVisaRequirements`, and the web screen's use of the answer is `TripForm.VerdictAfterCheck`.
- Persistence (`localStorage`, `AsyncStorage`) is a field, `storedUserId`.
- Notification platforms (`Notification`, `expo-notifications`, `setTimeout`) are left out. Only the list of alerts handed over is kept.
- Confetti animations, the three-second confetti reset, and the 2.5 s navigation after native onboarding are left out.
- Date-string parsing, `toLocaleDateString`, time zones and daylight saving are left out. "09:00 on day D" is taken in UTC.
- `Math.round` of the displayed percentage and IEEE rounding are left out; the arithmetic is exact (`real`).
- Only three rows of the `VISA_REQUIREMENTS` table appear, as examples; the lookup takes any table.
- Async interleaving and stale closures are left out. Every handler runs to completion before the next begins.
- Backend.Database.CreateUser: requires an id not yet in use, standing in for uuid4's freshness.
- Backend.Database.GetUserTrips: stated over the list's order. The database's natural order is taken to be insertion order, since the query has no sort.
- Backend.Database.DeleteTrip: removes the first trip with the id, as `delete_one` does. Trip ids are uuid4s, so there is normally only one.
- Text.LowerChar: lowercases ASCII letters only, not the full Unicode `toLowerCase`.
- Text.ParseInt: reads decimal digits only. `parseInt`'s "0x" prefix is left out, because the extensions field is a number input.
- Text.OccursAt and Text.Contains: compare Unicode scalar values where JavaScript compares UTF-16 code units. The two agree on well-formed strings. Lone surrogates cannot be represented. There is no normalisation.
- TripForm.VerdictDisplay: a verdict naming an `Object.prototype` member, such as "toString", would find that member in the JavaScript table. The model shows the "unknown" entry instead, because the backend never sends such verdicts.
- The web's `NotificationScreen` and `NationalityScreen` are modelled as methods of `WebApp.Session`, because their effects land in MainApp's state.
- ProgressRing.js, CountryFlag.js, index.js and the layout files are left out. They are display and routing only.
- The backend's request validation is left out. On the native onboarding PATCH it rejects the country name sent where a boolean is expected, so that PATCH's response is not ok (see Findings). The model takes that response as a parameter.
- If completeOnboarding succeeds but the storage write throws, the user is set and the step stays: that path is left out. The model takes the storage write to succeed.

## Findings

| source | as written | input that shows it | evidently intended | confidence | as-written member | corrected member |
|---|---|---|---|---|---|---|
| frontend/app/onboarding.js:150 | Calls `completeOnboarding(firstName, code, name, notificationsEnabled)`. That function takes `(nationalityCode, nationalityName, notificationsEnabled)` (frontend/context/AppContext.js:63). So the PATCH carries the first name as the nationality code, the code as the nationality and the country name as the notifications flag, and the flag is dropped. The backend declares that field `Optional[bool]` (backend/server.py:46), so it rejects the PATCH with a 422 before update_user runs. The native client then never sets the user, the stored id or step 4 (frontend/context/AppContext.js:83-90): onboarding never completes, and the user the POST created is left unused. | First name "Ana", nationality "BR"/"Brazil": the PATCH holds nationality_code "Ana", nationality "BR", notifications_enabled "Brazil". | Pass the chosen code, the country name and the boolean notifications choice, as the web client does (frontend/src/App.js:2345). | not executed | Onboarding.ForwardedAsWritten, Onboarding.AsWrittenSendsFirstNameAsCode, Onboarding.Flow.HandleComplete | Onboarding.ForwardedIntended, Onboarding.IntendedSendsProfile, Onboarding.Flow.HandleCompleteIntended |
