# Environmental query client: workflow and screen state

This project models the state logic of a small React client. The user types an environmental query,
picks or senses a location, waits on a "pending" screen while two simulated results arrive, and then
reads an analysis screen with three tabs. Rendering, maps, charts and animation are left to libraries.
What remains is a three-screen workflow controller plus the state cells each screen keeps. That part
is modelled here.

Each component becomes a Dafny `class` whose fields are its `useState` cells. Its handlers become
methods. Every `setTimeout` callback and geolocation callback becomes an explicit event method. That
method's `requires` says the callback is armed. In App, the pending screen and the query screens this
is tracked by ghost fields. In QueryView the armed timers are ordinary fields: two queues holding the
query and location each callback closed over. So no clock is modelled, and
any interleaving the browser could produce is one sequence of method calls.

App and the pending screen also get a pure state datatype with `Step` and `Run` over event sequences.
Each of their methods ensures `State() == Step(old(State()), e)`. The lemmas about whole runs are
stated over `Run`.

| file | module | component |
|---|---|---|
| `types.dfy` | `Types` | the `QueryData` / `AnalysisData` records of `src/App.tsx` |
| `strings.dfy` | `Strings` | JavaScript `String.prototype.trim` (ECMA-262, section 22.1.3.32) |
| `workflow.dfy` | `Workflow` | `App`: the screen identifier, the two payloads, the render conditions |
| `query_screen.dfy` | `QueryEntry` | `QueryScreen`: the submission gate and the location sources |
| `initial_response.dfy` | `Pending` | `InitialResponseScreen`: the narrative, the continue button and two timers |
| `analysis_screen.dfy` | `Analysis` | `AnalysisScreen`: the active tab, highlighting, panels, numbering |
| `query_view.dfy` | `AltQuery` | `QueryView`: an alternative query screen that App does not use |

Three behaviours one might expect are absent from the code, and this model follows the code:

- Continue is not gated on the analysis having arrived. `onContinue` sets the screen to
  `'analysis'` unconditionally, and only App's render condition keeps a data-less analysis screen
  from showing. `Workflow.EarlyContinueRendersNothing` shows that an early continue renders no screen
  until the analysis timer fires.
- A new submission neither clears earlier results nor discards a superseded submission's late timer.
  App's timer always writes the same fixed analysis. In the model, where only a rendered screen
  raises its callbacks, at most one submission occurs (`Workflow.AtMostOneSubmit`). In the program a
  leaving query screen stays clickable during its exit animation, so a second submit can occur.
  `Workflow.InvOffQuery` shows that App's invariant survives that and any other sequence of events
  once the query screen is left.
- QueryScreen falls back to (51.505, -0.09) only when sensing *fails*. Without a geolocation API, no
  request is made and the location stays null until a pick.

## Model

| member | source | states |
|---|---|---|
| `Types.Labels` | src/App.tsx:15-21 | the chart series' names, one per point, in order |
| `Types.Values` | src/App.tsx:15-21 | the chart series' values, one per point, in order |
| `Strings.SkipStart` | src/components/QueryScreen.tsx:57 | the first index at or after i that is not white space: everything skipped is white space |
| `Strings.SkipEnd` | src/components/QueryScreen.tsx:57 | the end of the last non-white-space character of a range: everything after it is white space |
| `Strings.Trim` | src/components/QueryScreen.tsx:57-58 | `trim()`: the result is an infix of s with only white space around it and no white space at either end |
| `Strings.TrimUnique` | src/components/QueryScreen.tsx:57-58 | those properties determine the trim: any non-empty trimmed infix with only white space around it is `Trim(s)` |
| `Strings.TrimEmptyIffAllWhitespace` | src/components/QueryScreen.tsx:57 | `!query.trim()` holds exactly when the query is empty or white space only |
| `Strings.IsBlank` | src/components/QueryView.tsx:55 | the `!query.trim()` test, returned as true exactly for an all-white-space string |
| `Strings.TrimOfTrimmed` | src/components/QueryScreen.tsx:58 | a string with no white space at either end is its own trim |
| `Strings.TrimIdempotent` | src/components/QueryScreen.tsx:58 | trimming twice is trimming once |
| `Workflow.SampleAnalysisShape` | src/App.tsx:33-50 | the delivered analysis has the series Jan 400, Feb 300, Mar 600, Apr 800 in order, a non-empty summary and exactly three suggestions |
| `Workflow.Step` | src/App.tsx:28-74 | one handler's effect: nothing moves to 'query'; only a submit writes the query cell; only the timer writes the analysis cell, and only with the delivered analysis |
| `Workflow.Raisable` | src/App.tsx:56-76 | only the rendered query screen submits; continue and back are raised only by screens that have the query data; a raisable event can occur |
| `Workflow.Views` | src/App.tsx:56-76 | at most one screen renders; none renders exactly when no condition holds; a rendered initial or analysis screen carries App's own payloads |
| `Workflow.InteractiveIsAdmissible` | src/App.tsx:56-76 | every event sequence the rendered screens can raise can actually occur |
| `Workflow.InvAlways` | src/App.tsx:28-30 | after any sequence the screens can raise, the screen is 'query' only in the initial state; any other screen has query data; an analysis exists only after a submit and is the delivered one |
| `Workflow.InvOffQuery` | src/App.tsx:28-74 | once off 'query', the invariant holds and the screen stays off 'query' after any events that can occur, including submissions from a leaving query screen |
| `Workflow.ReachableHasQuery` | src/App.tsx:62 | from the initial state, a screen other than 'query' always has its query data |
| `Workflow.NeverReturnsToQuery` | src/App.tsx:30 | once off 'query', no sequence of events comes back to it |
| `Workflow.NoSubmitAfterQuery` | src/App.tsx:56-61 | off the query screen, the screens raise no further submission |
| `Workflow.AtMostOneSubmit` | src/App.tsx:28-30 | from the initial state the screens raise at most one submission, and it comes first |
| `Workflow.BackThenContinue` | src/App.tsx:74 | back keeps both payloads and enables continue; back then continue restores the exact state and renders the same analysis |
| `Workflow.EarlyContinueRendersNothing` | src/App.tsx:66-69 | continue before the analysis arrives renders no screen; once the timer fires the analysis screen renders with the submitted query |
| `Workflow.App.constructor` | src/App.tsx:24-26 | the screen is 'query' and both payloads are null |
| `Workflow.App.HandleQuerySubmit` | src/App.tsx:28-30 | stores the query, shows 'initial', arms one analysis timer and leaves the analysis cell alone |
| `Workflow.App.AnalysisTimerFires` | src/App.tsx:33-50 | sets the fixed analysis; the screen and the query are unchanged |
| `Workflow.App.OnContinue` | src/App.tsx:66 | shows 'analysis' whatever the payloads are, changing nothing else |
| `Workflow.App.OnBack` | src/App.tsx:74 | shows 'initial', changing nothing else |
| `QueryEntry.Accepts` | src/components/QueryScreen.tsx:57 | the gate passes exactly when the query is not all white space and a location is set |
| `QueryEntry.BlankQueryNeverSubmits` | src/components/QueryScreen.tsx:57 | a white-space-only query is rejected whatever the location |
| `QueryEntry.NoLocationNeverSubmits` | src/components/QueryScreen.tsx:57 | a null location is rejected whatever the query |
| `QueryEntry.QueryScreen.constructor` | src/components/QueryScreen.tsx:34-54 | no location, map closed, empty query; a position request is outstanding exactly when the geolocation API exists |
| `QueryEntry.QueryScreen.PositionSucceeded` | src/components/QueryScreen.tsx:41-46 | the sensed pair becomes the location; query and map unchanged |
| `QueryEntry.QueryScreen.PositionFailed` | src/components/QueryScreen.tsx:47-51 | the location becomes the fallback (51.505, -0.09); query and map unchanged |
| `QueryEntry.QueryScreen.HandleSubmit` | src/components/QueryScreen.tsx:56-59 | submits exactly when the query is not all white space and a location is set; the submission holds the trimmed query, which is non-empty and trimmed, and the current location |
| `QueryEntry.QueryScreen.SetQuery` | src/components/QueryScreen.tsx:100 | the typed text becomes the query; nothing else changes |
| `QueryEntry.QueryScreen.SelectHint` | src/components/QueryScreen.tsx:8-14 | the query becomes exactly the clicked hint, one of the five |
| `QueryEntry.QueryScreen.OpenMap` | src/components/QueryScreen.tsx:82 | opens the map; nothing else changes |
| `QueryEntry.QueryScreen.CloseMap` | src/components/QueryScreen.tsx:152 | closes the map; nothing else changes |
| `QueryEntry.QueryScreen.PickLocation` | src/components/QueryScreen.tsx:170-173 | the picked pair replaces the location and the map closes; the query is unchanged |
| `QueryEntry.SensingFailureUsesFallback` | src/components/QueryScreen.tsx:47-58 | after sensing fails and the first hint is clicked, the submission carries that hint and the fallback location |
| `Pending.Step` | src/components/InitialResponseScreen.tsx:15-37 | one event's effect: the button never hides, the narrative never goes away, the first timer is never re-armed, nothing remounts, and the button appears only through the second timer |
| `Pending.NarrativeIsTruthy` | src/components/InitialResponseScreen.tsx:17-29 | the delivered narrative is truthy, so setting it arms the second timer |
| `Pending.InvAlways` | src/components/InitialResponseScreen.tsx:28-37 | after any possible timer and unmount sequence, the continue flag and the second timer imply the narrative, which is the delivered text |
| `Pending.NarrativeStaysSet` | src/components/InitialResponseScreen.tsx:17-23 | once set, the narrative never changes |
| `Pending.AfterUnmountNothingHappens` | src/components/InitialResponseScreen.tsx:25-35 | once unmounted, no event can occur, so no cell changes |
| `Pending.Panel` | src/components/InitialResponseScreen.tsx:66-88 | the spinner shows exactly while the narrative is null; otherwise the narrative shows |
| `Pending.MountedThenBothTimers` | src/components/InitialResponseScreen.tsx:15-37 | from mount, the first timer shows the narrative without the button and the second then shows the button |
| `Pending.InitialResponseScreen.constructor` | src/components/InitialResponseScreen.tsx:12-26 | the narrative is null, the button is hidden and the first timer is armed |
| `Pending.InitialResponseScreen.ResultTimerFires` | src/components/InitialResponseScreen.tsx:17-23 | sets the fixed narrative and, it being truthy, arms the second timer |
| `Pending.InitialResponseScreen.ContinueTimerFires` | src/components/InitialResponseScreen.tsx:31-33 | shows the continue button, the narrative being already set |
| `Pending.InitialResponseScreen.Unmount` | src/components/InitialResponseScreen.tsx:25-35 | both cleanups clear their timers; the cells stay |
| `Pending.InitialResponseScreen.ClickContinue` | src/components/InitialResponseScreen.tsx:92-101 | a click calls onContinue exactly when the button is shown, which is only once the narrative is set |
| `Analysis.TabIndex` | src/components/AnalysisScreen.tsx:18-22 | each tab sits at one position of the bar, and at no other |
| `Analysis.TabBarOrder` | src/components/AnalysisScreen.tsx:18-22 | the bar is charts, summary, suggestions, each once |
| `Analysis.Highlights` | src/components/AnalysisScreen.tsx:63-73 | a button is highlighted exactly when it is the active tab's |
| `Analysis.ExactlyOneHighlighted` | src/components/AnalysisScreen.tsx:63-73 | exactly one button is highlighted |
| `Analysis.Numbered` | src/components/AnalysisScreen.tsx:135-146 | the suggestions in their given order, each numbered from the first number up |
| `Analysis.Panels` | src/components/AnalysisScreen.tsx:90-150 | exactly one panel renders, the active tab's, with the analysis' series, its summary, or its suggestions numbered 1 to n |
| `Analysis.AnalysisScreen.constructor` | src/components/AnalysisScreen.tsx:16 | every mount starts on the charts tab |
| `Analysis.AnalysisScreen.SetActiveTab` | src/components/AnalysisScreen.tsx:62 | the clicked tab becomes active |
| `Analysis.SelectTwiceIsOnce` | src/components/AnalysisScreen.tsx:62 | from any active tab, selecting a tab twice leaves the same active tab and panel as selecting it once |
| `AltQuery.Accepts` | src/components/QueryView.tsx:55 | the gate passes exactly the queries that are not all white space |
| `AltQuery.GateIsWeaker` | src/components/QueryView.tsx:55 | whatever QueryScreen's gate passes this gate passes, and it also passes a null location |
| `AltQuery.QueryView.constructor` | src/components/QueryView.tsx:31-52 | every cell empty and no timer armed |
| `AltQuery.QueryView.PositionSucceeded` | src/components/QueryView.tsx:41-46 | the sensed pair becomes the location |
| `AltQuery.QueryView.PositionFailed` | src/components/QueryView.tsx:47-49 | the location is unchanged: there is no fallback |
| `AltQuery.QueryView.HandleSubmit` | src/components/QueryView.tsx:54-58 | a white-space-only query changes nothing; otherwise loading is set and a first timer is armed with the untrimmed query and the location, which may be null |
| `AltQuery.QueryView.ResultTimerFires` | src/components/QueryView.tsx:60-67 | sets the initial result and arms the second timer with the same snapshot |
| `AltQuery.QueryView.AnalysisTimerFires` | src/components/QueryView.tsx:67-82 | calls onShowAnalysis with the snapshot's query and location, the Jan to Apr series and three suggestions, after the initial result was set; loading stays set |
| `AltQuery.QueryView.SetQuery` | src/components/QueryView.tsx:115 | the typed text becomes the query |
| `AltQuery.QueryView.SelectHint` | src/components/QueryView.tsx:131-136 | the query becomes the clicked hint |
| `AltQuery.QueryView.SetMapOpen` | src/components/QueryView.tsx:99-159 | opens or closes the map; the no-op picker touches nothing |
| `AltQuery.SubmitWithoutLocation` | src/components/QueryView.tsx:54-83 | a submit with a null location goes through, and onShowAnalysis receives the untrimmed query and null even though a position arrived later; the initial result came first and loading stays set |
| `AltQuery.BlankSubmitDoesNothing` | src/components/QueryView.tsx:55 | a white-space-only submit arms nothing and leaves loading unset |

## Left out

- Rendering: JSX, framer-motion animation, `AnimatePresence` exit animations (which delay when the
  next screen mounts and keep the leaving screen clickable meanwhile), Tailwind classes and
  `tailwind.config.js`.
- Leaflet, Recharts and Mantine widgets. Their behaviour lives in libraries that are not part of this
  model. This includes `Button`'s `loading` rendering in QueryView, which is modelled only as the
  `isLoading` cell.
- `src/components/AnalysisView.tsx`: its tabs and panels are Mantine `Tabs`, so it has no logic of
  its own to state.
- `navigator.geolocation`: only its two callback outcomes are modelled, as event methods. Whether the
  API exists is a constructor parameter.
- Timer durations and the real-time race between them. App's analysis timer (2000 ms) and the pending
  screen's timers (2000 ms, then 1000 ms) are unordered events here. So the model admits a continue
  before the analysis arrives, which the real delays make unlikely.
- `toFixed(4)` formatting, `new Date().toISOString()` (the initial result's timestamp in QueryView),
  and `console.error`.
- Coordinates are `real` and chart values `int`; JavaScript's floating-point numbers are not modelled.
- `Workflow.Raisable`: the initial screen's `onContinue` is treated as raisable whenever that screen
  renders. The child's `showContinue` flag is what actually shows the button, and that link is not
  modelled. In the other direction, a leaving screen still raises events during its exit animation,
  and `Raisable` leaves that out. So `Workflow.AtMostOneSubmit` and `Workflow.NoSubmitAfterQuery`
  hold only for screens that are rendered. `Workflow.InvOffQuery` covers the rest.
- QueryView's `LocationPicker` has its map handler commented out, so no pick method exists. The modal
  only toggles `isMapOpen`.
- Behaviour the code does not have is not modelled: a data-gated continue, stale-event discarding,
  clearing results on resubmission, and a return to 'query'.
- Strings: `trim` is over `seq<char>` with ECMAScript's fixed set of white space and line terminators.
  There is no other Unicode processing.
