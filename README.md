# Oued flood-guard dashboard: client-side state model

This project models the client-side bookkeeping of the oued (river) flood-monitoring
dashboard. An external inference service turns each image into a water level, a
status and a report. What is left in the browser code is modelled here:

- **Archive page** (`Historique`): the stored list of archived sessions, most recent
  first. It covers deletion by id after a confirmation, the case-insensitive name
  search, the gallery's threshold colouring with its default of 20, and the
  time-range and date labels of a session card.
- **Analysis page** (`Analyse`): the live session buffer. It is an append-only
  sequence of observation points. It also holds the latest report and the session
  start time, and the step that archives the session and starts a new one.
- **Simulation page** (`Dashboard`): a playback controller over a remote list of
  image files. Each timer tick requests the file under the cursor, slides a
  ten-point chart and advances the cursor modulo the list length. A toggle flips
  play and pause.
- **Upload panel** (`WaterLevelDashboard`): a ten-point chart of uploaded images'
  levels, the current level, its status badge and a locally generated report.

Each page's React state becomes a Dafny `class` whose fields are the state
variables. Each handler becomes a method whose `ensures` gives the whole new state
in terms of the old one. `Valid()` predicates carry the invariants the handlers
keep. The two window forms, the filters and the labels are pure functions, and
their properties are lemmas. Replies of the service, user dialogs (`confirm`,
`prompt`), clock readings, `Date.now()` ids, image previews and number formatting
are method parameters.

Shared modules:
- `Sequences`: JavaScript `filter` and `slice(start)`, plus subsequence and
  multiset facts about `filter`.
- `Text`: ASCII `toLowerCase`, `includes` and `split(sep)[0]`.
- `Records`: the record types.
- `ChartWindow`: the ten-point window.

Behaviour of the code a reader might not expect:
- The simulation toggle flips `isPlaying` even when the file list is empty. No tick
  then fires, because the interval needs a non-empty list
  (oued-guard-dashboard/src/pages/Dashboard.jsx:36, 76).
- Stored JSON is not recovered from corruption: `JSON.parse` would throw. The model
  takes the restored values as already decoded.
- A failed simulate fetch does not advance the cursor, so the next tick asks for
  the same file again.
- The "stop at end of list" branch and the modulo wrap sit in the same function.
  Under the controller's invariant the stop branch is reachable only with an empty
  list, which never ticks (`Dashboard.Simulation.Tick`).
- The upload panel never checks `data.error`. Its `data.level.toFixed` call throws
  into the `catch` when a body has no numeric `level`.

## Model

| member | source | states |
|---|---|---|
| `Sequences.Filter` | oued-guard-dashboard/src/pages/Historique.jsx:20 | `arr.filter(p)` keeps exactly the elements of the input that pass `p`, and never more than the input holds |
| `Sequences.SliceStart` | oued-guard-dashboard/src/pages/Dashboard.jsx:65 | the index `slice(start)` starts from always lies within the array |
| `Sequences.Slice` | oued-guard-dashboard/src/pages/Dashboard.jsx:65 | `arr.slice(start)`: the elements from the clamped start index on; its suffix property is `SliceLast` |
| `Sequences.SliceLast` | oued-guard-dashboard/src/pages/Dashboard.jsx:65 | for `k > 0`, `arr.slice(-k)` is the suffix of length min(len(arr), k) |
| `Text.Lower` | oued-guard-dashboard/src/pages/Historique.jsx:28 | lower-casing keeps the length of the string |
| `Text.LowerIdempotent` | oued-guard-dashboard/src/pages/Historique.jsx:28 | lower-casing an already lower-cased string changes nothing |
| `Text.Contains` | oued-guard-dashboard/src/pages/Historique.jsx:28 | `includes` finds every prefix of the string, the empty term included, and nothing longer than the string |
| `Text.ContainsAt` | oued-guard-dashboard/src/pages/Historique.jsx:28 | `includes` holds exactly when the term occurs at some position of the name |
| `Text.FirstField` | oued-guard-dashboard/src/pages/Historique.jsx:77 | `split(sep)[0]` is the longest prefix without `sep`: it is a prefix, holds no `sep`, and is followed by `sep` when it stops early |
| `ChartWindow.Slide` | oued-guard-dashboard/src/pages/Dashboard.jsx:63-66 | `[...prev, p].slice(-10)`; its shape is `SlideShape` |
| `ChartWindow.ShiftIn` | oued-guard-dashboard/src/component/WaterLevelDashboard.jsx:38 | the upload panel's `[...prev.slice(-9), p]` equals the simulation page's `[...prev, p].slice(-10)` (`Slide`) for every `prev` and `p` |
| `ChartWindow.SlideShape` | oued-guard-dashboard/src/pages/Dashboard.jsx:63-66 | one update gives min(len(prev)+1, 10) points, ends with the new point, and is a suffix of `prev ++ [p]` |
| `ChartWindow.SlideAllKeepsLast` | oued-guard-dashboard/src/pages/Dashboard.jsx:63-66 | after any run of updates the window is the last ten points of the whole history, in order |
| `ChartWindow.UploadsFromEmpty` | oued-guard-dashboard/src/pages/Dashboard.jsx:63-66 | from an empty chart, N updates leave exactly `min(N, 10)` points: the latest ones, in arrival order |
| `Historique.DeleteKeepsOthers` | oued-guard-dashboard/src/pages/Historique.jsx:18-22 | a confirmed delete keeps exactly the archives whose id differs. Each keeps its multiplicity and its relative order |
| `Historique.DeleteAbsent` | oued-guard-dashboard/src/pages/Historique.jsx:20 | deleting an id that no archive carries leaves the list unchanged |
| `Historique.DeleteTwice` | oued-guard-dashboard/src/pages/Historique.jsx:20 | deleting the same id twice is the same as deleting it once |
| `Historique.WithoutId` | oued-guard-dashboard/src/pages/Historique.jsx:20 | `archives.filter(a => a.id !== id)` holds exactly the archives whose id differs, and never more than the list |
| `Historique.MatchesSearch` | oued-guard-dashboard/src/pages/Historique.jsx:28 | a session matches iff the lower-cased term occurs at some position of its lower-cased name |
| `Historique.FilteredArchives` | oued-guard-dashboard/src/pages/Historique.jsx:27-29 | the search result holds exactly the stored sessions that match the term, and never more than the list |
| `Historique.SearchKeepsMatches` | oued-guard-dashboard/src/pages/Historique.jsx:27-29 | the search result is a subsequence of the archives holding exactly the sessions whose lower-cased name includes the lower-cased term, each as often as stored |
| `Historique.SearchEmptyTerm` | oued-guard-dashboard/src/pages/Historique.jsx:27-29 | an empty search term returns all archives unchanged, in order |
| `Historique.SearchIgnoresTermCase` | oued-guard-dashboard/src/pages/Historique.jsx:28 | searching a term and its lower-cased form select the same sessions |
| `Historique.EffectiveThreshold` | oued-guard-dashboard/src/pages/Historique.jsx:154 | the gallery's threshold, `finalThreshold` falling back to 20, is never zero. It is the session's threshold when that is present and non-zero, otherwise 20 |
| `Historique.IsOverThreshold` | oued-guard-dashboard/src/pages/Historique.jsx:154 | a gallery point is red iff its level exceeds the session's own non-zero threshold, or 20 when the session has none (20 itself is not over) |
| `Historique.TimeRange` | oued-guard-dashboard/src/pages/Historique.jsx:81 | the card's range starts with the first point's time and ends with the last's, and it is `N/A` for an empty session |
| `Historique.TimeRangeNA` | oued-guard-dashboard/src/pages/Historique.jsx:81 | the range reads `N/A` exactly when the session has no point |
| `Historique.StartDate` | oued-guard-dashboard/src/pages/Historique.jsx:77 | the card's date is the part of the session start before its first space: a space-free prefix, followed by a space unless it is the whole start |
| `Historique.ArchiveStore.constructor` | oued-guard-dashboard/src/pages/Historique.jsx:13-16 | on mount the list is the stored one, or empty when nothing is stored |
| `Historique.ArchiveStore.DeleteArchive` | oued-guard-dashboard/src/pages/Historique.jsx:18-24 | only a confirmed delete changes the list, and then to the archives without that id; a refused confirmation leaves it as it was |
| `Analyse.AnalysisAlert` | oued-guard-dashboard/src/pages/Analyse.jsx:46-65 | success gives no alert. A service-reported error is shown verbatim after its prefix, and a failed exchange gives the connection alert |
| `Analyse.ArchivedPointsUseDefault` | oued-guard-dashboard/src/pages/Analyse.jsx:87 | the archive step stores no threshold, so the gallery judges every point of a session archived here against 20 |
| `Analyse.DeleteUndoesArchive` | oued-guard-dashboard/src/pages/Analyse.jsx:87-89 | deleting a fresh archive's id (shared by no older archive) gives back the list as it was before archiving |
| `Analyse.AnalysisPage.constructor` | oued-guard-dashboard/src/pages/Analyse.jsx:16-25 | the buffer is restored from storage or empty. The start time is the stored one unless it is missing or empty, in which case it is the current time. There is no report |
| `Analyse.AnalysisPage.LastAnalysis` | oued-guard-dashboard/src/pages/Analyse.jsx:97 | the last point of the buffer, absent exactly when the buffer is empty |
| `Analyse.AnalysisPage.ProcessImage` | oued-guard-dashboard/src/pages/Analyse.jsx:33-69 | a successful reply appends exactly one point at the end, shows its report and makes it the last analysis. A service error or failed exchange leaves buffer and report unchanged, and the start time never changes |
| `Analyse.AnalysisPage.HandleImageUpload` | oued-guard-dashboard/src/pages/Analyse.jsx:71-81 | nothing happens without a file. Otherwise the start time is reset exactly when the buffer was empty, whatever the reply. The image is processed with the reader's preview once it loads; a reader that never loads leaves buffer and report unchanged and raises no alert |
| `Analyse.AnalysisPage.HandleArchiveAndReset` | oued-guard-dashboard/src/pages/Analyse.jsx:83-95 | an empty buffer is refused and a cancelled or empty name is a no-op, both with archives and session unchanged. Otherwise one record holding the old buffer is prepended before the old archives, and the buffer, report and start time are reset |
| `Dashboard.NextIndex` | oued-guard-dashboard/src/pages/Dashboard.jsx:69 | the advanced cursor is always inside the list: one step on, or back to 0 after the last file |
| `Dashboard.AlertStyling` | oued-guard-dashboard/src/pages/Dashboard.jsx:150-172 | the level card, its warning line and the chart switch to the alert colours strictly above 50 |
| `Dashboard.Simulation.Valid` | oued-guard-dashboard/src/pages/Dashboard.jsx:36-69 | the cursor rests at 0 before the list arrives and points into the list once it is non-empty, and the chart holds at most ten points |
| `Dashboard.Simulation.TickEnabled` | oued-guard-dashboard/src/pages/Dashboard.jsx:36 | the interval runs only while playing with a non-empty list, and then the cursor of a valid controller points at a file of the list |
| `Dashboard.Simulation.constructor` | oued-guard-dashboard/src/pages/Dashboard.jsx:12-21 | the controller starts paused with no files, cursor 0, no image, level 0, status "En attente", no report and an empty chart |
| `Dashboard.Simulation.LoadFiles` | oued-guard-dashboard/src/pages/Dashboard.jsx:24-31 | an array listing becomes the file list and anything else leaves it empty. The cursor stays 0 and nothing else changes |
| `Dashboard.Simulation.ToggleSimulation` | oued-guard-dashboard/src/pages/Dashboard.jsx:76 | the toggle flips `isPlaying` and changes no other field |
| `Dashboard.Simulation.AnalyzeNextImage` | oued-guard-dashboard/src/pages/Dashboard.jsx:45-74 | with the cursor past the list, playback stops and nothing else changes. Otherwise the file under the cursor is requested. A usable reply sets image, level and status and slides the chart. It overwrites the report only when the reply has a non-empty one, and advances the cursor modulo the list length. A failed fetch changes nothing |
| `Dashboard.Simulation.Tick` | oued-guard-dashboard/src/pages/Dashboard.jsx:34-42 | a tick has an effect only while playing with a non-empty list. Then it never takes the stop branch, keeps playing and requests the file under the cursor. A usable reply sets image, level, status and (when non-empty) the report, slides the chart and advances the cursor; a failed fetch changes none of them. The cursor stays in range |
| `Dashboard.TwoFileCycle` | oued-guard-dashboard/src/pages/Dashboard.jsx:45-69 | with files a.jpg and b.jpg answering levels 25 and 10, two ticks request both files in order, chart both points in order, wrap the cursor to 0 and keep playing |
| `WaterLevelDashboard.GenererRapportSimple` | oued-guard-dashboard/src/component/WaterLevelDashboard.jsx:52-58 | the report opens with the alert heading iff the level exceeds 20, and it is the normal text otherwise (20 included) |
| `WaterLevelDashboard.IsCritical` | oued-guard-dashboard/src/component/WaterLevelDashboard.jsx:108-112 | the upload panel's flood threshold: strictly above 20 |
| `WaterLevelDashboard.StatusLabel` | oued-guard-dashboard/src/component/WaterLevelDashboard.jsx:108-112 | the badge reads "RISQUE CRITIQUE" iff the level exceeds 20 |
| `WaterLevelDashboard.UploadPanel.constructor` | oued-guard-dashboard/src/component/WaterLevelDashboard.jsx:7-12 | the chart starts as the single point ("Initial", 0), with level 0 and no report |
| `WaterLevelDashboard.UploadPanel.Valid` | oued-guard-dashboard/src/component/WaterLevelDashboard.jsx:7-38 | the chart is never empty and holds at most ten points, and a report, once there is one, agrees with the status badge |
| `WaterLevelDashboard.UploadPanel.HandleImageUpload` | oued-guard-dashboard/src/component/WaterLevelDashboard.jsx:15-50 | a usable reply makes the chart `prev.slice(-9) ++ [p]`: min(len(prev)+1, 10) points ending with `p`. It also sets the current level to the new point's level and keeps the report in agreement with the status badge. A failure only raises the alert, and chart, level and report are unchanged |

## Left out

- Browser storage: the writes of `oued_chart_v2`, `oued_session_start` and `oued_archives` are not modelled as a separate store. The archive list is one field, `ArchiveStore.archives`, which the archive page's state and the storage key always share. JSON encoding and decoding are left out, and restored values arrive already decoded.
- HTTP, `FormData`, `FileReader` and `response.json()`: every reply is an input value (`Prediction`, `SimReply`), and the reader's result is the `preview` input of `Analyse.AnalysisPage.HandleImageUpload`. A reader that fails has no `onerror` handler, so it is modelled as a preview that never arrives. A simulate reply lacking `level`, `status` or `image_data` is not modelled. The code would store `undefined` there.
- The `loading` flag: on the analysis page it disables the file input and changes its caption while a request is in flight. On the upload panel it only changes the caption, so uploads can overlap there; overlapping uploads fall under the sequential assumption in "Timers and concurrency".
- Timers and concurrency: the 3-second `setInterval`, its cancellation on pause, and requests still in flight when paused. `Tick` stands for one firing of the interval. Each exchange completes before the next operation.
- Floating point: the `toFixed(2)` / `parseFloat` rounding of levels and the `toFixed(1)` display. Levels are real numbers compared only against the thresholds. A `NaN` threshold, which JavaScript also treats as falsy, is not modelled.
- Number-to-text formatting of a level in the report: it is the `shown` parameter of `GenererRapportSimple`.
- Clock and locale strings (`toLocaleString`, `toLocaleTimeString`) and `Date.now()` ids are parameters. Nothing makes ids unique, and a delete removes every archive that carries the id.
- `toLowerCase` outside ASCII: only the letters A-Z are lower-cased.
- Presentation: the JSX, the charts' drawing, the verdict colouring by the service's status, the per-card point count, the rest of the session detail dialog and printing. The display decisions that depend on state are kept as predicates and functions: `Dashboard.AlertStyling`, `Historique.IsOverThreshold`, `WaterLevelDashboard.StatusLabel`, `Historique.TimeRange` and `Historique.StartDate`.
- `App.jsx`: routing, sidebar styling and the clock in the header.
- The service's error bodies: no file of the repository shows them. The model assumes an error body carries no numeric `level`, so the upload panel, which never checks `data.error`, treats it like a failed connection. An error body that did carry a numeric `level` would be charted there.
- A body whose `error` field is present but falsy (an empty text): it goes down the `level` path on both pages, so `ServiceError` always carries a non-empty message.
