# Appointment health assessment wizard — a Dafny model of its screen logic

The wizard is a short client-side flow: a loading screen steps through three
status messages and then opens the results screen; the results screen draws a
practice "health state" (Poor, Good or Healthy), shows three suggestions taken
from that state's table, each with an improvement percentage drawn from the
state's range, and routes two of them to preference screens; the insurance
screen keeps a selection of insurance networks and a provider picker with a
case-insensitive search over name, location and specialty, paginated ten to a
page; the appointment-preferences screen keeps one settings record. Both
preference screens save by returning to the results screen with the payload
they received, tagged with where the save came from, and the results screen
then opens a confirmation toast.

This project models that logic, screen by screen:

- `routing.dfy` (module `Routing`): the navigation payload as a map from field
  names to JavaScript values, JavaScript truthiness, reading a payload field
  that may be absent, the Save merge `{ ...location.state, from: tag }` shared
  by both preference screens, and the impact banner `impactMetric &&
  impactPercentage && (...)` shared by both.
- `insurance.dfy` (module `Insurance`): the ten-network catalogue and the
  twelve mock providers, the membership toggle used for both networks and
  providers, ASCII lower-casing and `String.prototype.includes`, the provider
  filter, `pageCount`, `Array.prototype.slice` and the current page, and a
  class `InsuranceUpdateScreen` holding the screen's state fields with one
  method per handler.
- `results.dfy` (module `Results`): health states, the suggestion table, the
  percentage and health-state draws, the memoised choice of three suggestions,
  click routing, the progress-section and toast effects, and a class
  `ResultsScreen` holding `section` and `showToast`.
- `appointments.dfy` (module `Appointments`): the settings record, the generic
  change and slider handlers as methods of `AppointmentPreferencesScreen`, and
  the sliders' declared ranges.
- `loading.dfy` (module `Loading`): the clamped message counter, and a class
  `LoadingScreen` whose `Tick` is one period of the repeating timer, with the
  one-shot navigation timer and the teardown that clears both.
- `flow.dfy` (module `Flow`): the round trip results → preference screen →
  Save → results, followed through the payload.

Randomness is a parameter. `Math.floor(Math.random() * n)` becomes an integer
draw `k` with `0 <= k < n`, which is what the expression yields. The shuffle
`sort(() => 0.5 - Math.random())` becomes an arbitrary permutation of the
entry indices. Timers become discrete ticks and "still registered" flags.

Two behaviours of the code are modelled as written:

- Changing the search term does not reset the current page. So a user on page 2
  whose new search leaves at most ten matches sees an empty page
  (`Insurance.StrandedPage`).
- The banner expression renders the text `0` when the metric is truthy and the
  percentage is the number 0. React prints a number that `&&` returns, so the
  banner is hidden but a stray "0" is shown. The wizard's own payloads never
  carry 0, because every percentage is at least 5
  (`Flow.ClickedSuggestionShowsBanner`).

No screen ever sets `completedInsurances` or `completedAppointments`, so in the
wizard's own flow the results screen always lands on the insurances section
(`Flow.RoundTrip`).

## Model

| member | source | states |
|---|---|---|
| `Routing.Truthy` | basic-webapp/src/components/ResultsScreen.js:162-164 | the falsy values are exactly `undefined`, `null`, `false`, `0` and `""`; every other value, an empty array included, is truthy |
| `Routing.Lookup` | basic-webapp/src/components/InsuranceUpdate.js:89 | a field of `location.state \|\| {}` is the stored value when present and `undefined` when the field or the whole payload is absent |
| `Routing.SaveAndReturn` | basic-webapp/src/components/InsuranceUpdate.js:169-176 | Save navigates to `/results`; the payload has exactly the received keys plus `from`; `from` holds the tag; every other received field is unchanged; an absent payload counts as empty |
| `Routing.ImpactBanner` | basic-webapp/src/components/AppointmentPreferences.js:112-130 | the banner shows iff both impact fields are truthy, carrying those values; a stray "0" appears iff the first falsy operand is the number 0; nothing shows without a payload |
| `Insurance.Without` | basic-webapp/src/components/InsuranceUpdate.js:125 | filtering out `x` removes every occurrence of `x`; every other entry keeps its multiplicity and relative order; the length drops by the count of `x` |
| `Insurance.Toggle` | basic-webapp/src/components/InsuranceUpdate.js:122-128 | toggling flips the membership of `x` and keeps every other entry's membership; a present `x` loses every occurrence, the rest keep multiplicity and order; an absent `x` is appended at the end |
| `Insurance.ToggleKeepsNoDup` | basic-webapp/src/components/InsuranceUpdate.js:157-163 | a duplicate-free selection stays duplicate-free under toggling; its length goes down by one when the entry was present and up by one when it was absent |
| `Insurance.ToggleTwice` | basic-webapp/src/components/InsuranceUpdate.js:122-128 | toggling the same entry twice restores exactly the original membership, and the very list when the entry was absent |
| `Insurance.ToLower` | basic-webapp/src/components/InsuranceUpdate.js:138-140 | lower-casing keeps the length, turns each upper-case ASCII letter into its lower-case letter (32 code points on), leaves every other character and leaves no upper-case letter |
| `Insurance.ToLowerIgnoresCase` | basic-webapp/src/components/InsuranceUpdate.js:138-140 | two strings lower-case alike iff they are equal up to the case of ASCII letters |
| `Insurance.Includes` | basic-webapp/src/components/InsuranceUpdate.js:138 | `includes` holds iff the needle occurs at some position of the string |
| `Insurance.Matches` | basic-webapp/src/components/InsuranceUpdate.js:137-141 | a provider matches iff the lower-cased term occurs in its lower-cased name, location or specialty; the empty term matches every provider |
| `Insurance.FilterProviders` | basic-webapp/src/components/InsuranceUpdate.js:137-141 | a provider is kept iff the lower-cased term occurs in its lower-cased name, location or specialty; the result is an order-preserving sublist of the input |
| `Insurance.FilterIgnoresCase` | basic-webapp/src/components/InsuranceUpdate.js:137-141 | the search is case-insensitive: terms equal up to the case of their letters keep the same providers in the same order |
| `Insurance.EmptyTermKeepsAll` | basic-webapp/src/components/InsuranceUpdate.js:137-141 | an empty search term keeps every provider, in order |
| `Insurance.PageCount` | basic-webapp/src/components/InsuranceUpdate.js:143 | the page count is the ceiling of count / 10: the least number of 10-entry pages that hold every entry, 0 for no entries |
| `Insurance.SliceBound` | basic-webapp/src/components/InsuranceUpdate.js:144-147 | a slice index is clamped to the length; an index within bounds is kept |
| `Insurance.JsSlice` | basic-webapp/src/components/InsuranceUpdate.js:144-147 | `slice` returns `max(0, to - from)` entries for the clamped bounds `from` and `to`, entry `k` being the input's entry `from + k` |
| `Insurance.PageOf` | basic-webapp/src/components/InsuranceUpdate.js:144-147 | page `p >= 1` holds the entries from position `(p-1)*10` on, `min(10, max(0, n - (p-1)*10))` of them for `n` entries; a page past the page count is empty |
| `Insurance.PagesCoverItems` | basic-webapp/src/components/InsuranceUpdate.js:143-147 | every filtered provider appears on page `i/10 + 1`, which is within the page count, at offset `i%10`; no other page holds that position |
| `Insurance.InsuranceUpdateScreen.constructor` | basic-webapp/src/components/InsuranceUpdate.js:90-97 | the initial state: all catalogue names selected, apply-to-all on, dialog closed, empty search, no provider selected, page 1 |
| `Insurance.InsuranceUpdateScreen.ToggleInsurance` | basic-webapp/src/components/InsuranceUpdate.js:122-128 | the network selection becomes its toggle; it stays duplicate-free; nothing else changes |
| `Insurance.InsuranceUpdateScreen.ApplyToAllChange` | basic-webapp/src/components/InsuranceUpdate.js:130-135 | the flag takes the checkbox value; unchecking opens the provider dialog; checking leaves the dialog as it was |
| `Insurance.InsuranceUpdateScreen.CloseProviderDialog` | basic-webapp/src/components/InsuranceUpdate.js:529-531 | the dialog's close, Cancel and Done actions close the dialog and change nothing else |
| `Insurance.InsuranceUpdateScreen.ChangeSearchTerm` | basic-webapp/src/components/InsuranceUpdate.js:427 | the search term takes the typed value; the current page is left unchanged |
| `Insurance.InsuranceUpdateScreen.SelectAll` | basic-webapp/src/components/InsuranceUpdate.js:149-155 | with all 12 selected the selection becomes empty; otherwise it becomes all 12 ids in catalogue order |
| `Insurance.InsuranceUpdateScreen.SelectProvider` | basic-webapp/src/components/InsuranceUpdate.js:157-163 | the provider selection becomes its toggle, stays duplicate-free, and shrinks by one when the id was selected |
| `Insurance.InsuranceUpdateScreen.ChangePage` | basic-webapp/src/components/InsuranceUpdate.js:165-167 | the current page becomes the page the pagination reports |
| `Insurance.InsuranceUpdateScreen.FilteredProviders` | basic-webapp/src/components/InsuranceUpdate.js:137-141 | the filtered list holds exactly the catalogue providers matching the current term |
| `Insurance.InsuranceUpdateScreen.CurrentProviders` | basic-webapp/src/components/InsuranceUpdate.js:144-147 | the current page shows at most 10 providers, all matching the term, and none when the page is past the page count |
| `Insurance.InsuranceUpdateScreen.Save` | basic-webapp/src/components/InsuranceUpdate.js:169-176 | Save goes to `/results` with the received fields and `from` set to `'insurance-save'` |
| `Insurance.InsuranceUpdateScreen.ImpactNotice` | basic-webapp/src/components/InsuranceUpdate.js:226-245 | the banner shows iff both received impact fields are truthy, and then shows the received metric and percentage; a stray "0" appears iff the first falsy operand is the number 0; nothing shows without a payload |
| `Insurance.InitialInsurances` | basic-webapp/src/components/InsuranceUpdate.js:33-84 | the initial selection is exactly the ten network names in catalogue order, without repeats |
| `Insurance.ProviderIdsAreOneToTwelve` | basic-webapp/src/components/InsuranceUpdate.js:107-120 | the provider ids are 1 to 12 in order, without repeats |
| `Insurance.SelectAllThenUntickOne` | basic-webapp/src/components/InsuranceUpdate.js:149-163 | after "Select all", unticking any one provider leaves 11 selected |
| `Insurance.StrandedPage` | basic-webapp/src/components/InsuranceUpdate.js:143-147 | with between 1 and 10 matches there is one page; page 2 is empty and page 1 holds every match |
| `Results.RandomPercentage` | basic-webapp/src/components/ResultsScreen.js:20-22 | for a draw `k` in `[0, max-min]` the percentage lies in `[min, max]` inclusive |
| `Results.RandomPercentageCoversRange` | basic-webapp/src/components/ResultsScreen.js:20-22 | every value of `[min, max]` is produced by exactly one draw |
| `Results.RandomHealthState` | basic-webapp/src/components/ResultsScreen.js:24-26 | draw 0 gives Poor, draw 1 Good and draw 2 Healthy, and no other draw gives that state |
| `Results.EveryHealthStateDrawable` | basic-webapp/src/components/ResultsScreen.js:18-26 | each health state is the outcome of exactly one of the three draws, so a uniform draw gives each state a third of the time |
| `Results.PoorConfigWellFormed` | basic-webapp/src/components/ResultsScreen.js:29-47 | the Poor entry has range 10..70 with min <= max, four suggestions, distinct labels and non-empty metrics |
| `Results.GoodConfigWellFormed` | basic-webapp/src/components/ResultsScreen.js:48-72 | the Good entry has range 10..15 with min <= max, six suggestions, distinct labels and non-empty metrics |
| `Results.HealthyConfigWellFormed` | basic-webapp/src/components/ResultsScreen.js:73-94 | the Healthy entry has range 5..10 with min <= max, five suggestions, distinct labels and non-empty metrics |
| `Results.ConfigFor` | basic-webapp/src/components/ResultsScreen.js:28-95 | every health state's entry is well formed: min <= max, at least 4 suggestions, distinct labels, non-empty metrics, and a minimum percentage of at least 5 |
| `Results.SelectSuggestions` | basic-webapp/src/components/ResultsScreen.js:184-194 | the displayed list is the first min(3, n) entries of the permutation, each keeping its configured metric, with a percentage in the state's range; labels are distinct when the table's are |
| `Results.ThreeDistinctSuggestions` | basic-webapp/src/components/ResultsScreen.js:184-194 | for every well-formed table entry (every health state's entry is one) and every draw, exactly three suggestions show, with distinct labels, each a configured label with its metric and a percentage in range |
| `Results.SuggestionClick` | basic-webapp/src/components/ResultsScreen.js:196-218 | the two routed labels go to `/appointment-preferences` and `/insurance-update`, carrying exactly `{impactMetric, impactPercentage}` from the suggestion; every other label stays put |
| `Results.SectionFor` | basic-webapp/src/components/ResultsScreen.js:160-169 | the section is `complete` iff both completion flags are truthy, `appointments` iff only `completedInsurances` is, and `insurances` otherwise, including without a payload |
| `Results.ToastTriggered` | basic-webapp/src/components/ResultsScreen.js:172-177 | the toast fires iff `from` is `'insurance-save'` or `'appointment-save'`; never without a payload |
| `Results.ResultsScreen.constructor` | basic-webapp/src/components/ResultsScreen.js:151-157 | on mount the health state and the three suggestions are drawn once; the section starts at `insurances` and the toast is closed |
| `Results.ResultsScreen.CurrentConfig` | basic-webapp/src/components/ResultsScreen.js:154 | the config in use is a well-formed table entry (distinct labels, non-empty texts and metrics, at least four suggestions, an ordered percentage range) whose percentage minimum is at least 5 |
| `Results.ResultsScreen.SectionEffect` | basic-webapp/src/components/ResultsScreen.js:160-169 | the effect sets the section the payload selects |
| `Results.ResultsScreen.ToastEffect` | basic-webapp/src/components/ResultsScreen.js:172-177 | the effect opens the toast after a save and otherwise leaves it as it was |
| `Results.ResultsScreen.CloseToast` | basic-webapp/src/components/ResultsScreen.js:327-330 | the toast's close and auto-hide close it |
| `Results.ResultsScreen.Click` | basic-webapp/src/components/ResultsScreen.js:271 | clicking a displayed suggestion navigates iff its label is one of the two routed labels, and then passes that suggestion's own percentage |
| `Appointments.Settings.With` | basic-webapp/src/components/AppointmentPreferences.js:42-45 | the spread update sets the named field and leaves the other three unchanged |
| `Appointments.InitialSettingsInRange` | basic-webapp/src/components/AppointmentPreferences.js:29-34 | the initial settings are bufferTime 15, maxDailyAppointments 8, allowWeekends false and preferredTimeSlots `['morning']`; both slider fields lie on their sliders |
| `Appointments.SliderChangeKeepsRange` | basic-webapp/src/components/AppointmentPreferences.js:138-170 | a value reported by a field's own slider keeps bufferTime in 0..30 in steps of 5 and maxDailyAppointments in 4..12 |
| `Appointments.AppointmentPreferencesScreen.constructor` | basic-webapp/src/components/AppointmentPreferences.js:29-34 | the screen starts with the initial settings, which lie on both sliders |
| `Appointments.AppointmentPreferencesScreen.HandleChange` | basic-webapp/src/components/AppointmentPreferences.js:41-46 | the named field takes the event's payload and every other field is unchanged |
| `Appointments.AppointmentPreferencesScreen.HandleSliderChange` | basic-webapp/src/components/AppointmentPreferences.js:48-53 | the named field takes the slider value and every other field is unchanged; a value from the field's own slider keeps both sliders in range |
| `Appointments.AppointmentPreferencesScreen.Save` | basic-webapp/src/components/AppointmentPreferences.js:55-62 | Save goes to `/results` with the received fields and `from` set to `'appointment-save'` |
| `Appointments.AppointmentPreferencesScreen.ImpactNotice` | basic-webapp/src/components/AppointmentPreferences.js:112-130 | the banner shows iff both received impact fields are truthy, and then shows the received metric and percentage; a stray "0" appears iff the first falsy operand is the number 0; nothing shows without a payload |
| `Loading.NextIndex` | basic-webapp/src/components/LoadingScreen.js:25-30 | a tick never lowers the index; it changes the index iff the index is below the last (2); it keeps an in-range index in range |
| `Loading.IndexAfterTicks` | basic-webapp/src/components/LoadingScreen.js:20-31 | after k ticks from 0 the index is min(k, 2) |
| `Loading.IndexAfterMonotone` | basic-webapp/src/components/LoadingScreen.js:25-30 | the index never decreases over ticks, and once it reaches the last index it stays there |
| `Loading.LoadingScreen.constructor` | basic-webapp/src/components/LoadingScreen.js:20-36 | on mount the index is 0, both timers are registered and nothing has navigated |
| `Loading.LoadingScreen.Tick` | basic-webapp/src/components/LoadingScreen.js:24-36 | one period advances a registered counter by the clamped rule; the pending navigation fires once, when 5400 ms are reached; the index stays within 0..2 |
| `Loading.LoadingScreen.Teardown` | basic-webapp/src/components/LoadingScreen.js:38-41 | cleanup clears both timers |
| `Loading.LoadingScreen.CurrentMessage` | basic-webapp/src/components/LoadingScreen.js:71 | the displayed message is always a defined entry of the message table |
| `Loading.RunUndisturbed` | basic-webapp/src/components/LoadingScreen.js:34-36 | left alone, the screen navigates to `/results` exactly once, at 1800 × 3 = 5400 ms, with the last message showing |
| `Loading.TickAfterTeardown` | basic-webapp/src/components/LoadingScreen.js:38-41 | after teardown a tick neither moves the index nor navigates |
| `Flow.ClickedSuggestionShowsBanner` | basic-webapp/src/components/ResultsScreen.js:196-218 | a routed displayed suggestion from a well-formed entry with a positive minimum (every health state's entry) arrives with a visible banner carrying its metric and percentage |
| `Flow.SaveReturnsWithToast` | basic-webapp/src/components/ResultsScreen.js:172-177 | after either Save the results screen opens the toast and keeps the received impact fields; without completion flags it lands on `insurances` |
| `Flow.RoundTrip` | basic-webapp/src/components/AppointmentPreferences.js:55-62 | click → Save → results carries the suggestion's metric and percentage back, opens the toast and lands on `insurances` |
| `Flow.SaveWithoutPayload` | basic-webapp/src/components/InsuranceUpdate.js:169-176 | a screen reached without a payload saves with a payload holding only the `from` tag |

## Left out

- All rendering, styling, the theme and the component library's widgets. Only the values the markup reads are modelled.
- The router table and the start screen. Routes appear as path constants.
- `Math.random` itself. Each random use is replaced by an explicit integer draw or an index permutation; uniformity is not modelled.
- Real-time timer behaviour. Time advances in whole 1800 ms periods. Within a period the repeating timer runs before the one-shot timer. The unmount that follows navigation is a separate `Teardown` call.
- `window.scrollTo`, `console.log` in the dialog's Done action, `navigate(-1)` on the Back buttons, the "Back to start" button, and the view-providers link with an empty handler.
- The `showToast` state of the insurance and appointment screens. Nothing ever sets it to true.
- Full Unicode `toLowerCase`. Only ASCII letters are lower-cased.
- JavaScript numbers are modelled as integers. Every number the wizard handles is one.
- `Insurance.InsuranceUpdateScreen.ChangePage`: requires a page of at least 1, since the pagination widget only reports pages from 1 up.
