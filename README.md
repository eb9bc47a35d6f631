# Vacation planner: trip progress and planning flow, modelled in Dafny

The vacation planner lets a user enter a destination and dates, pick one of
three budget tiers (backpacker, travel enthusiast, luxury) and then work
through a day-by-day itinerary, ticking activities off. This project models
the parts of it with state or exact arithmetic:

- `models.dfy` (module `Models`): the backend's data shapes — activities,
  days, budget plans, the three-tier travel plan and its client keys, user
  trips with their completion map, and the full-map progress update.
- `activity_keys.dfy` (`ActivityKeys`): the `"<day>-<activity>"` keys the
  frontend stores completion under, with decimal rendering of the indices,
  and the proof that distinct index pairs get distinct keys.
- `progress.dfy` (`Progress`): completion maps, the count of their true
  flags, and integer half-up rounding.
- `itinerary_view.dfy` (`ItineraryView`): the itinerary view — completion
  statistics, the toggle, the local-storage scope key, and a class with the
  view's state: the loaded plan, the completion map, the in-flight flag,
  local storage and the remote writes issued.
- `destination_input.dfy` (`DestinationInput`): the trip-parameter form —
  JavaScript `trim`, the day-count formula, the travelers counter, the
  submit guard and the disabled button.
- `app.dfy` (`App`): the three-view flow controller as a class over the
  four state fields, with an invariant tying the view to the fields that
  are set and an abstraction into a tagged stage.
- `database.dfy` (`Database`): the server's trip store over the collection
  in insertion order, and the server's progress percentage.
- `scenarios.dfy` (`Scenarios`): facts that span components.
- `wrappers.dfy` (`Wrappers`): `Option` and `Result`.

Remote calls, the clock and id/token generation are parameters: the outcome
of `getTravelPlans`, `getTripProgress` and `saveTrip` is passed to the
method that awaits it as a `Result`; the fresh trip id, share token and the
current time are passed in. The asynchronous `toggleCheck` is split at its
`await` into `ToggleCheck` (local write, and the remote write if it is
issued) and `FinishSave` (its `finally`), so that a toggle made between the
two can be seen not to reach the server.

Timestamps are integer milliseconds. Percentages are integers: the view's
`Math.round` is half-up rounding of `100 * completed / total`; the server's
`round(x, 1)` is kept as tenths of a percent, half-up.

Behaviour of the code worth knowing:

- The view's `completed` counts every true flag in the stored map, not only
  keys that address an activity of the current plan; a stale map can give a
  percentage above 100 (`ItineraryView.StaleKeysExceedHundred`). The bound
  is guaranteed when every checked key addresses an activity
  (`ItineraryView.PercentageBounded`).
- The server's percentage divides by the number of stored keys, not by the
  plan's activity count, so the two figures generally differ once some flag
  is true and the number of stored keys differs from the plan's activity
  count. After the first check on a four-activity plan the server already
  reports 100.0 while the view shows 25
  (`Scenarios.FirstCheckServerReportsHundred`); a stored false flag counts
  on the server only (`Scenarios.ViewAndServerDenominatorsDiffer`), and
  unchecking an activity after checking it leaves such a false flag
  (`Scenarios.DoubleToggleChangesServerPercentage`).
- Nothing in the load discards a late response; the remote map replaces
  the local one whenever the fetch succeeds.
- The form does not check that the start date precedes the end date; the
  form's own code bounds only the travelers counter (below, by one).

## Model

| member | source | states |
|---|---|---|
| `Models.TierKey` | backend/server.py:55-59 | each tier is exposed under one of the keys `backpacker`, `travelEnthusiast`, `luxury` |
| `Models.ParseTier` | backend/server.py:55-59 | a key names a tier exactly when it is one of the three client keys, and then it is that tier's key |
| `Models.TierKeyRoundTrip` | backend/server.py:55-59 | reading a tier's key back gives the tier |
| `Models.PlansByKey` | backend/server.py:53-60 | the plans object has exactly the three tier keys, each holding that tier's plan of the travel plan |
| `Models.FromCreate` | backend/models.py:54-72 | a trip built from a creation request copies its fields, takes the fresh id, has an empty completion map and no share token yet |
| `ActivityKeys.NatToString` | frontend/src/components/ItineraryView.jsx:110 | an index is written as a non-empty string of decimal digits, with a leading `0` only for zero itself |
| `ActivityKeys.ParseNatToString` | frontend/src/components/ItineraryView.jsx:110 | reading the decimal rendering back gives the index |
| `ActivityKeys.Key` | frontend/src/components/ItineraryView.jsx:110 | a key is the day's digits, one dash, then the activity's digits: every other character is a digit |
| `ActivityKeys.KeyInjective` | frontend/src/components/ItineraryView.jsx:110 | two `"d-a"` keys are equal exactly when both indices are equal |
| `Progress.IsChecked` | frontend/src/components/ItineraryView.jsx:305 | a key missing from the map counts as unchecked; a stored key is checked exactly when its flag is true |
| `Progress.TrueKeys` | frontend/src/components/ItineraryView.jsx:157 | the keys collected are exactly those whose flag is true, all of them keys of the map |
| `Progress.CountTrue` | backend/database.py:101 | the number of true flags is at most the number of stored keys and 0 for an empty map |
| `Progress.RoundHalfUp` | frontend/src/components/ItineraryView.jsx:158 | the result is the nearest integer to `n / d`, halves rounded up |
| `ItineraryView.PlanKeysMembership` | frontend/src/components/ItineraryView.jsx:303-305 | the keys of a plan are exactly the keys `"d-a"` with `d` a day index and `a` an activity index of that day |
| `ItineraryView.TotalActivities` | frontend/src/components/ItineraryView.jsx:156 | the sum covers every day's activity count, and is zero exactly when every day is empty |
| `ItineraryView.PlanKeysCount` | frontend/src/components/ItineraryView.jsx:156 | a plan has as many distinct keys as the summed activity counts of its days |
| `ItineraryView.CompletionStats` | frontend/src/components/ItineraryView.jsx:153-161 | no plan gives 0/0/0; otherwise total is the number of activity keys of the plan, completed the number of true flags in the whole map, and the percentage 0 for an empty plan and else `100 * completed / total` rounded half-up |
| `ItineraryView.PercentageBounded` | frontend/src/components/ItineraryView.jsx:157-158 | when every checked key addresses an activity of the plan, completed is at most total and the percentage at most 100 |
| `ItineraryView.StaleKeysExceedHundred` | frontend/src/components/ItineraryView.jsx:157-158 | a one-activity plan with that key and one stale key checked gives total 1, completed 2, percentage 200 |
| `ItineraryView.TwoDayPlanExample` | frontend/src/components/ItineraryView.jsx:153-160 | days of three and two activities with `0-0` and `0-1` checked give 5, 2 and 40 |
| `ItineraryView.Toggled` | frontend/src/components/ItineraryView.jsx:110-114 | the toggle adds the key if missing, flips its checked value (a missing key counts as unchecked, so becomes true) and keeps every other entry |
| `ItineraryView.ToggleCount` | frontend/src/components/ItineraryView.jsx:111-114 | a toggle lowers the true count by one when the key was checked and raises it by one otherwise |
| `ItineraryView.ToggleTwice` | frontend/src/components/ItineraryView.jsx:111-114 | toggling a key twice restores every key's checked value and the true count; a key absent before stays behind with the value false, so the map differs |
| `ItineraryView.ToggleTwiceKeepsStats` | frontend/src/components/ItineraryView.jsx:153-160 | toggling a key twice leaves total, completed and percentage unchanged |
| `ItineraryView.TwoTogglesExample` | frontend/src/components/ItineraryView.jsx:109-116 | toggling `0-0` then `0-1` from an empty map on a four-activity plan gives 50% |
| `ItineraryView.HasTripId` | frontend/src/components/ItineraryView.jsx:119 | a trip id counts, as JavaScript truthiness has it, only when it is set and not the empty string |
| `ItineraryView.ScopeKey` | frontend/src/components/ItineraryView.jsx:57 | the storage key is `trip-progress-` followed by the trip id when one is present (set and non-empty), else by `local` |
| `ItineraryView.ScopeKeyInjective` | frontend/src/components/ItineraryView.jsx:57 | two present trip ids share a scope exactly when they are equal |
| `ItineraryView.LocalIdSharesScope` | frontend/src/components/ItineraryView.jsx:57 | a trip whose id is the string `local` shares the scope of unsaved trips |
| `ItineraryView.ReadStore` | frontend/src/components/ItineraryView.jsx:57 | reading a scope gives the map stored there, and `{}` when nothing is stored |
| `ItineraryView.WriteStore` | frontend/src/components/ItineraryView.jsx:57 | after writing a scope, reading it gives the map written, and every other scope reads as before |
| `ItineraryView.ItineraryView.constructor` | frontend/src/components/ItineraryView.jsx:55-58 | a mounted view has no plan, is loading, has no save in flight, and shows the map stored under its scope or `{}` |
| `ItineraryView.ItineraryView.ToggleCheck` | frontend/src/components/ItineraryView.jsx:109-122 | the map becomes the toggled map, written whole to the view's scope; it is sent, whole, exactly when there is a trip id and no save in flight, and then a save is in flight |
| `ItineraryView.ItineraryView.FinishSave` | frontend/src/components/ItineraryView.jsx:121-127 | once the remote write settles no save is in flight, the rest unchanged |
| `ItineraryView.ItineraryView.LoadTravelData` | frontend/src/components/ItineraryView.jsx:64-98 | plans are fetched only with a destination and a tier; progress only after the plans loaded and with a trip id; a successful progress fetch replaces the map wholesale with `completed_activities` or `{}` and writes it locally; a failed fetch keeps the map; loading ends once the fetch was made |
| `ItineraryView.InFlightToggleScenario` | frontend/src/components/ItineraryView.jsx:119-127 | a second toggle while the first save is in flight is stored locally but never sent |
| `ItineraryView.RemoteReplacesLocalScenario` | frontend/src/components/ItineraryView.jsx:74-77 | with `{0-0: true}` stored locally and `{1-0: true}` on the server, the view shows exactly `{1-0: true}` |
| `DestinationInput.Trim` | frontend/src/components/DestinationInput.jsx:25-27 | the trimmed text is a slice of the input with only white space cut from each end, empty exactly when the input is all white space, and neither starting nor ending in white space |
| `DestinationInput.TrimIdempotent` | frontend/src/components/DestinationInput.jsx:27 | trimming the trimmed destination changes nothing |
| `DestinationInput.CeilDiv` | frontend/src/components/DestinationInput.jsx:30 | the result is the least integer whose multiple of the divisor reaches the dividend |
| `DestinationInput.Duration` | frontend/src/components/DestinationInput.jsx:30 | the duration is the least number of whole days covering the time between the two dates |
| `DestinationInput.DurationOfWholeDays` | frontend/src/components/DestinationInput.jsx:30 | a range of exactly `k` days has duration `k` |
| `DestinationInput.DurationOfPartDay` | frontend/src/components/DestinationInput.jsx:30 | `k` whole days plus a part day have duration `k + 1` |
| `DestinationInput.DurationNonNegative` | frontend/src/components/DestinationInput.jsx:30 | an ordered range has a non-negative duration |
| `DestinationInput.SubmitGuard` | frontend/src/components/DestinationInput.jsx:25 | the form submits exactly when both dates are set and the destination has a character other than white space |
| `DestinationInput.SubmitDisabled` | frontend/src/components/DestinationInput.jsx:172 | the button is disabled exactly when the submit guard rejects |
| `DestinationInput.DecrementTravelers` | frontend/src/components/DestinationInput.jsx:147 | decrementing gives one fewer traveler, never fewer than one |
| `DestinationInput.DestinationForm.constructor` | frontend/src/components/DestinationInput.jsx:12-17 | the form starts blank with two travelers; the range runs from the first clock read to seven days after the second, later read |
| `DestinationInput.DestinationForm.SetDestination` | frontend/src/components/DestinationInput.jsx:70-82 | typing or picking a popular place replaces the destination text, untrimmed |
| `DestinationInput.DestinationForm.HandleDateSelect` | frontend/src/components/DestinationInput.jsx:19-21 | the picked range replaces the form's range |
| `DestinationInput.DestinationForm.Decrement` | frontend/src/components/DestinationInput.jsx:147 | the counter is decremented with the clamp at one |
| `DestinationInput.DestinationForm.Increment` | frontend/src/components/DestinationInput.jsx:159 | the counter goes up by exactly one and stays at least one |
| `DestinationInput.DestinationForm.HandleSubmit` | frontend/src/components/DestinationInput.jsx:23-33 | parameters are handed on exactly when the button is enabled, with the trimmed non-empty destination, both dates, the travelers (at least one) and the duration |
| `DestinationInput.InitialSubmitScenario` | frontend/src/components/DestinationInput.jsx:12-33 | the initial form with destination `" Paris "` hands on `Paris` and two travelers, with a duration of 7 days when both clock reads agree and 8 when the second read came later within the same day |
| `App.App.constructor` | frontend/src/App.js:12-15 | the flow starts at the destination view with no parameters, tier or trip id and no save request |
| `App.App.HandlePlanTrip` | frontend/src/App.js:17-22 | the parameters are stored, the tier and trip id cleared, and the view is budget |
| `App.App.HandleSelectBudget` | frontend/src/App.js:24-44 | exactly one save request with the current parameters and the tier; on success the returned id is stored, on failure the id is untouched; either way the tier is set and the view is itinerary |
| `App.App.HandleBackToDestination` | frontend/src/App.js:46-51 | all four fields reset to the destination view, no remote call |
| `App.App.HandleBackToBudget` | frontend/src/App.js:53-57 | parameters kept, tier and trip id cleared, the view is budget, no remote call |
| `Database.ProgressTenths` | backend/database.py:95-103 | 0 for an empty map; otherwise the true flags over all stored keys, rounded to tenths; never above 100.0 |
| `Database.AllTrueIsHundred` | backend/database.py:100-103 | a non-empty map whose flags are all true gives exactly 100.0 |
| `Database.FalseFlagsCount` | backend/database.py:100-101 | a stored false flag counts in the denominator: one true and one false give 50.0 |
| `Database.FirstWithId` | backend/database.py:71-74 | the lookup picks the first stored trip with the id, or none when no trip has it |
| `Database.TripStore.constructor` | backend/database.py:19-21 | the trips collection starts empty: no id finds a trip |
| `Database.TripStore.GetUserTrip` | backend/database.py:71-74 | a trip is returned exactly when one with that id is stored, and it is a stored trip with that id |
| `Database.TripStore.CreateUserTrip` | backend/database.py:63-68 | the new trip, with an empty completion map and the share token, is appended; looking its id up then finds it when the id was new; other ids look up as before |
| `Database.TripStore.UpdateTripProgress` | backend/database.py:83-92 | the first trip with the id gets the update's map wholesale; nothing is returned for an unknown id or when the map sent equals the stored one; otherwise the updated trip is returned |
| `Scenarios.FailedSaveScenario` | frontend/src/App.js:38-43 | a failed save still reaches the itinerary without a trip id, and the next toggle is stored under the local scope and not sent |
| `Scenarios.DoubleToggleChangesServerPercentage` | backend/database.py:100 | checking and unchecking a new activity keeps the view's count but takes the server's figure from 100.0 to 50.0 |
| `Scenarios.ViewAndServerDenominatorsDiffer` | backend/database.py:100 | on a four-activity plan, `{0-0: true, 0-1: false}` is 25% in the view and 50.0 on the server |
| `Scenarios.FirstCheckServerReportsHundred` | backend/database.py:100 | on a four-activity plan, `{0-0: true}` is 25% in the view and 100.0 on the server, with no false flag stored |
| `Scenarios.ServerPlanReachesViewScenario` | frontend/src/components/ItineraryView.jsx:64-71 | the server's plans keyed by tier give the view the plan of the chosen tier when there is a destination, and no plan without one |
| `Scenarios.SentProgressIsStoredScenario` | backend/database.py:83-92 | the map a view sends for a newly created trip is what the store then holds for it |

## Left out

- Rendering, styling, icons, colours, `formatDate`, toasts and the share-link handler of the itinerary view: presentation and clipboard behaviour only.
- The calendar's restriction to days from the current time on (the picker's
  `disabled` callback, frontend/src/components/DestinationInput.jsx:129) is not modelled: `DestinationInput.DestinationForm.HandleDateSelect` accepts any range.
- The HTTP layer (`frontend/src/services/api.js`, routing, CORS, logging in `backend/server.py`): replaced by call outcomes passed as parameters. Because the progress update call catches every failure itself, `FinishSave` takes no outcome; the server's mapping of a missing update result to status 404 is not modelled beyond the `None` result.
- The `useLocalStorage` hook is not part of this model; storage is modelled as a write-through map from scope key to completion map. What it does with malformed stored data, and whether it writes the initial `{}`, is not modelled.
- Asynchronous interleavings: a back navigation while `saveTrip` is outstanding (the handler would still move to the itinerary afterwards), overlapping remote progress writes, and late responses arriving after the view's trip changed. Every awaited call is one sequential step.
- Floating point: `Math.round`, Python's `round(x, 1)` and `Math.ceil` of a float quotient are modelled on exact integers with half-up rounding; Python rounds ties to even on the binary value, and float error near extreme dates can differ from the exact ceiling.
- Calendar arithmetic: `addDays(new Date(), 7)` is modelled as seven times 86 400 000 ms, ignoring daylight-saving shifts; the two clock reads of the initial range are parameters, the second no earlier than the first.
- A date picker that clears the whole range (leaving `dateRange` undefined, so reading `dateRange.from` would throw) is not modelled; each end of the range may be unset.
- `App.App.HandleSelectBudget`: requires trip parameters to be present; the handler is only reachable from the budget view, and without parameters it would throw inside its `try` and move on with no parameters.
- `App.App.HandleBackToBudget`: requires trip parameters to be present; the handler is only reachable from the itinerary view, where they are.
- MongoDB: the collection is a sequence in insertion order; `find_one` and `update_one` pick the first match. Dictionary equality for the modified count ignores key order, while BSON compares key order.
- Ids, share tokens and `created_at` timestamps (`uuid4`, `secrets.token_urlsafe`, `datetime.utcnow`) are parameters or left out; the other `DatabaseManager` methods (destinations, travel plans, lookup by share token) are outside this model.
- `frontend/src/App.js` imports `DestinationInputApi`, which is not part of this model; the trip-parameter form modelled is `DestinationInput`.
- `BudgetSelection.jsx`, `mockData.js` and `seed_data.py`: a fetch plus card rendering and static content.
- The activity `type` is an unrestricted string, as stored; `Models.IsDocumentedKind` names the five documented categories but nothing enforces them.
