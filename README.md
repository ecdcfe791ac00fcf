# Smart CV cleanliness monitor, modelled in Dafny

This project models the core of a React dashboard that monitors public
toilets. The dashboard has five core parts:

- **Upload panel** (`upload_section.dfy`, module `UploadSection`). It checks
  the type and size of a picked photo or video and keeps the file on show,
  with its object URL. It runs a simulated computer-vision pipeline that
  scores four zones (floor, toilet seat, sink, dustbin), takes their floored
  mean, classifies it as Clean / Moderately Dirty / Dirty, and raises an
  alert below 30.
- **Results modal** (`results_display.dfy`, module `ResultsDisplay`). It
  adjusts a raw result: if every zone has no detections it shows 100 % and
  Clean. It colours scores, draws the per-zone tiles, and dispatches one
  alert per mounted result through its `alertSent` flag.
- **Alert panel** (`alert_panel.dfy`, module `AlertPanel`). It splits alerts
  into active and resolved, shows the first three resolved ones, prints
  "Nm ago" / "Nh ago", and picks tones and icons by severity. A resolved
  alert looks muted whatever its severity.
- **Dashboard page** (`dashboard.dfy`, module `Dashboard`). It holds the
  fleet and the alerts, and refreshes every score by a random step clamped
  to [0,100]. It receives processed uploads and prepends a high-severity
  alert for those that raised one. It derives the header's average score,
  its active-alert count, and the station order by ascending score.
- **Mock data** (`mock_data.dfy`, module `MockData`). It builds nine
  stations, six alerts, and a 24-point hourly history.

Shared value types live in `types.dfy` (module `Types`). The JavaScript
rendering of integers in template strings (`${n}`) and a parser that inverts
it live in `decimal.dfy` (module `Decimal`).

Modelling conventions:

- Every `Math.random()` is a `Draw`, a real in [0,1), passed in by the
  caller.
- `Date.now()` is an integer parameter `now`, in milliseconds. A `new Date(x)`
  at a fractional `x` truncates toward zero (`Types.TimeValue`).
- Station scores are reals, because the refresh tick adds a fractional
  step. Pipeline and zone scores are integers.
- Components whose state changes are classes: `UploadSection.UploadState`,
  `ResultsDisplay.ResultsPanel` and `Dashboard.DashboardState`. Their
  methods update fields under `modifies` clauses. Everything computed from
  values is a function.
- The browser's object-URL registry is modelled on `UploadState` by
  abstract handles: the set still live, the revocations in order, and the
  next fresh handle.
- `generateHistoricalData` keeps its loop: it is a method with a `while`
  loop.

Behaviour of the code a reader might not expect, which the model keeps:

- `handleFile` itself does not revoke the URL of a file it would replace.
  The panel never lets this happen: the drop zone, the browse button and
  the file input are rendered only while no file is shown, so no object URL is
  leaked: each is the shown file's or has been revoked, and none is revoked
  twice (`UploadSection.UploadState.ReleasesEveryUrl`,
  kept by `HandleFile` whenever the picker is shown and by `ClearFile`). Only
  a direct call of `handleFile` with a file on show would leave a URL live
  with no file showing it (`UploadSection.ReplacementKeepsOldUrlLive`).
- An upload alert is added to the page's alert list only when the result
  raised its alert, which means a score below 30. It is not added for every
  result whose adjusted view is Dirty or below 40.
- The auto-send effect fires on `isDirty` alone, not on
  `isDirty || alertTriggered`. Only the banner button also looks at
  `alertTriggered`. On pipeline output the two agree
  (`ResultsDisplay.PipelineOutputIsNotAdjusted`).
- The adjusted status tests `adjustedCleanliness === 100`, not the
  all-zones-empty condition. A raw score of 100 with detections therefore
  also reads as Clean (`ResultsDisplay.ScoreOfHundredReadsClean`).
- The page renders the results modal without `onSendAlert`. Its
  upload callback stores a placeholder file record, which shares only the
  id with the upload, instead of the uploaded file. `ResultsPanel` takes
  `hasSendAlert` as a parameter; `Dashboard.PlaceholderFile` builds the record.
- Zone tiles show "100% Clean" for a zone without detections but colour
  the text and the bar by the raw score.

## Model

| member | source | states |
|---|---|---|
| UploadSection.ValidateFile | src/components/UploadSection.tsx:42-53 | a file is accepted iff its type is one of the four allowed and its size is at most 50 MiB; the type is checked first, so a wrong type is always InvalidFileType and FileTooLarge means an allowed type over the limit; an accepted file is an image iff its type is not video/mp4 |
| UploadSection.UploadBoundaries | src/components/UploadSection.tsx:43-53 | a PDF is refused for its type, 52,428,801 bytes of MP4 for its size, and a PNG of exactly 52,428,800 bytes is accepted as an image |
| UploadSection.UploadState.HandleFile | src/components/UploadSection.tsx:42-66 | a rejected file yields its notice and leaves the panel unchanged; an accepted one becomes the shown file with a fresh live object URL, id `file-<now>`, and nothing else changes (a replaced file's URL is not revoked); called while the picker is shown, it keeps every URL released or shown |
| UploadSection.UploadState.ClearFile | src/components/UploadSection.tsx:153-161 | the shown file's URL is revoked and removed from the live set, and no file is shown; with no file nothing is revoked; a URL is never revoked twice and every URL stays released or shown |
| UploadSection.UploadState.HandleProcessing | src/components/UploadSection.tsx:139-151 | without a file nothing happens; with one, the result handed on is the simulated analysis of that file and the processing flag ends lowered |
| UploadSection.ScoreZones | src/components/UploadSection.tsx:73-118 | each zone score is an integer in [0,99]; the floor has 1-3 dirt_spot detections, the seat 1-2 stains, the sink 0-1 soap_residue and the dustbin 0-1 overflow, every detection carrying its zone's label |
| UploadSection.OverallScore | src/components/UploadSection.tsx:120-122 | the overall score is the floor of the mean of the four zone scores |
| UploadSection.Classify | src/components/UploadSection.tsx:124 | Clean iff score >= 70, Moderately Dirty iff 40 <= score < 70, Dirty iff score < 40 |
| UploadSection.SimulateProcessing | src/components/UploadSection.tsx:68-137 | every result has the zone shapes, the floored mean as its score, the status of its band, alertTriggered iff score < 30, the file's id, and its completion time as processedAt |
| UploadSection.PipelineScoreAndAlert | src/components/UploadSection.tsx:120-135 | a pipeline score lies in [0,99] and an alert is raised only for a Dirty result |
| ResultsDisplay.Adjust | src/components/ResultsDisplay.tsx:21-30 | cleanliness and dirtiness sum to 100; with all zones empty the view is 100 / 0 / Clean / not dirty, otherwise it keeps the raw score; the status is Clean exactly when the shown cleanliness is 100, else the raw status; isDirty iff the status is Dirty or cleanliness < 40 |
| ResultsDisplay.AdjustIdempotent | src/components/ResultsDisplay.tsx:21-30 | adjusting a result that already carries its adjusted cleanliness and status yields the same view again |
| ResultsDisplay.ScoreOfHundredReadsClean | src/components/ResultsDisplay.tsx:28 | a result with detections, raw score 100 and raw status Dirty reads as Clean and not dirty |
| ResultsDisplay.PipelineOutputIsNotAdjusted | src/components/ResultsDisplay.tsx:22-30 | on any pipeline result the floor has a detection, so the all-empty override never fires, the view is the raw result, isDirty iff score < 40, and an alerted result is dirty |
| ResultsDisplay.PipelineNeverOverridden | src/components/UploadSection.tsx:73-84 | every run of the simulated pipeline shows its raw score and raw status in the modal |
| ResultsDisplay.ColorOf | src/components/ResultsDisplay.tsx:41-45 | green iff score >= 70, yellow iff 40 <= score < 70, red iff score < 40 |
| ResultsDisplay.ColorMatchesStatus | src/components/ResultsDisplay.tsx:41-45 | the green, yellow and red score colours are exactly the Clean, Moderately Dirty and Dirty bands |
| ResultsDisplay.Tile | src/components/ResultsDisplay.tsx:189-205 | clean and dirty percentages sum to 100 and the bar width equals the clean percentage; a zone without detections shows 100, else its score; text and bar are coloured by the raw score |
| ResultsDisplay.EmptyZoneColoredByRawScore | src/components/ResultsDisplay.tsx:189-205 | a zone with no detections and raw score 10 shows 100 % clean in red |
| ResultsDisplay.Payload | src/components/ResultsDisplay.tsx:50-56 | the payload's severity and score are the adjusted status and cleanliness, its image is the file's URL and its timestamp the dispatch time |
| ResultsDisplay.ResultsPanel.HandleSendAlert | src/components/ResultsDisplay.tsx:48-67 | the payload is handed on only when a callback exists, and the sent flag is raised either way; at most one payload is ever sent |
| ResultsDisplay.ResultsPanel.AutoSendEffect | src/components/ResultsDisplay.tsx:70-74 | the effect sends once when the adjusted view is dirty and nothing has been sent; otherwise it changes nothing |
| ResultsDisplay.ResultsPanel.ClickSend | src/components/ResultsDisplay.tsx:135-243 | a click on the banner (shown when dirty or alerted and not yet sent) or the action button (shown when dirty and not yet sent) sends once; a hidden button changes nothing |
| AlertPanel.WithResolved | src/components/AlertPanel.tsx:43-44 | an alert is kept iff it is in the list and its resolved flag matches |
| AlertPanel.PartitionAlerts | src/components/AlertPanel.tsx:43-44 | active and resolved alerts together are the whole list as a multiset, their counts add up, and each keeps the list's order |
| AlertPanel.NoAlertsIffEmpty | src/components/AlertPanel.tsx:54 | the "No alerts" placeholder shows iff the list is empty |
| AlertPanel.ShownResolved | src/components/AlertPanel.tsx:90 | the shown resolved alerts are the first min(3, n) resolved alerts, in order |
| AlertPanel.FormatTimeAgo | src/components/AlertPanel.tsx:36-41 | the text ends in "m ago" iff less than an hour has passed, else in "h ago", after a non-empty prefix |
| AlertPanel.TimeAgoMeaning | src/components/AlertPanel.tsx:36-41 | the unit is minutes iff less than an hour has passed, and the number printed before it is the elapsed time floored to whole minutes or whole hours |
| AlertPanel.SeverityTone | src/components/AlertPanel.tsx:11-20 | the tone is muted iff the alert is resolved; an unresolved alert is red iff its severity is high |
| AlertPanel.SeverityIcon | src/components/AlertPanel.tsx:22-34 | the icon is the check mark iff the alert is resolved; otherwise a triangle in the alert's unresolved tone |
| AlertPanel.ResolvedOverridesSeverity | src/components/AlertPanel.tsx:11-34 | a resolved alert has the same tone and icon whatever its severity; unresolved alerts of different severities look different |
| Dashboard.DashboardState.Mount | src/components/Dashboard.tsx:20-23 | on mount the fleet is the generated mock fleet and the alerts the generated mock alerts, all scores in [0,100] |
| Dashboard.Clamp | src/components/Dashboard.tsx:29-31 | the clamped score lies in [0,100]: a score in range is kept, one below 0 becomes 0 and one above 100 becomes 100 |
| Dashboard.Refreshed | src/components/Dashboard.tsx:27-33 | a refreshed station has its score in [0,100], the tick time as its update time, and every other field unchanged |
| Dashboard.RefreshAll | src/components/Dashboard.tsx:27-33 | the fleet keeps its length and station i becomes its refresh with the i-th draw |
| Dashboard.RefreshKeepsFleet | src/components/Dashboard.tsx:26-34 | a refresh keeps every score in [0,100], moves each by at most 5, and keeps the stations' ids and order |
| Dashboard.DashboardState.RefreshTick | src/components/Dashboard.tsx:26-34 | each station i is replaced by its refresh with the i-th draw and the tick time, and scores stay in [0,100] |
| Dashboard.DashboardState.HandleProcessingComplete | src/components/Dashboard.tsx:39-55 | the result and the file are stored, and one alert is prepended iff the result raised its alert |
| Dashboard.UploadAlert | src/components/Dashboard.tsx:45-52 | the prepended alert is high severity, unresolved and names "uploaded-analysis" |
| Dashboard.UploadAlertIsActive | src/components/Dashboard.tsx:44-53 | the prepended alert raises the active-alert count by exactly one |
| Dashboard.DashboardState.OnUploadProcessed | src/components/Dashboard.tsx:79-91 | the page stores a placeholder file that carries only the result's file id |
| Dashboard.PlaceholderFile | src/components/Dashboard.tsx:82-89 | the placeholder record carries the result's file id |
| Dashboard.DashboardState.CloseResults | src/components/Dashboard.tsx:57-60 | the result and the file are cleared, which hides the modal |
| Dashboard.DashboardState.ShowsResults | src/components/Dashboard.tsx:131 | the modal is shown iff a result is stored; the page keeps the result and its file set and cleared together |
| Dashboard.AverageScore | src/components/Dashboard.tsx:62-64 | the average is 0 for an empty fleet, else the floor of the mean score |
| Dashboard.AverageInRange | src/components/Dashboard.tsx:62-64 | with every score in [0,100] the average lies in [0,100] |
| Dashboard.DashboardState.AvgScore | src/components/Dashboard.tsx:62-64 | the header's average lies in [0,100] and is the floored mean |
| Dashboard.DashboardState.ActiveAlertCount | src/components/Dashboard.tsx:66 | the active count is the number of alerts minus the resolved ones |
| Dashboard.SortByScore | src/components/Dashboard.tsx:68 | the display order is a permutation of the fleet, ascending by score |
| Dashboard.InsertBounded | src/components/Dashboard.tsx:68 | a lower bound on the inserted station and on the list bounds every station after insertion |
| Dashboard.InsertKeepsSorted | src/components/Dashboard.tsx:68 | inserting a station into an ascending list keeps it ascending |
| Dashboard.DashboardState.SortedToilets | src/components/Dashboard.tsx:68 | the sorted view holds the same stations, ascending by score |
| MockData.GenerateMockToilets | src/data/mockData.ts:3-26 | nine stations with ids `toilet-1`..`toilet-9`, names and locations in order, integral scores and zone scores in [0,99], updated within the past hour and predicted dirty within the next two |
| MockData.MockStationIdsDistinct | src/data/mockData.ts:11 | the nine station ids are pairwise distinct |
| MockData.GenerateMockAlerts | src/data/mockData.ts:47-65 | six alerts `alert-1`..`alert-6` with the six messages in order, each naming a station id and stamped within the past hour |
| MockData.MockAlertsNameMockStations | src/data/mockData.ts:57-64 | every mock alert names one of the mock stations |
| MockData.GenerateHistoricalData | src/data/mockData.ts:28-45 | 24 points for the station, oldest first, from 23 hours ago to now one hour apart, each the clamped floor of its sample in [0,100] |

## Left out

- Rendering, styling, icons, drag state and the file input's reset are not modelled; only the values they show are.
- Detection boxes and confidences, `processingTime` and `modelConfidence` are floating-point display data. They and the draws that feed them are not modelled, so `ScoringDraws` holds only the draws that decide scores and counts.
- The 3-second delay and the 5-second interval are not modelled. One tick is one call of `RefreshTick`, and an analysis completes within the call.
- The source reads the clock more than once within one operation, but the model uses one `now` per call. The places are: the station generator (`Date.now()` twice per station, for its update time and its predicted-dirty time), the alert generator (once per alert), `handleFile` (the id and `uploadedAt`), `simulateProcessing` (the id and `processedAt`), `handleProcessingComplete` (the alert's id and timestamp), and the refresh tick, which calls `new Date()` once per station. The history generator reads the time once per call, as the model does.
- JavaScript numbers are idealised as unbounded integers and exact reals. Rounding of doubles, exponent notation of very large numbers and the Date range limit are not modelled.
- `formatFileSize` is display-only and uses logarithms; it is not modelled.
- The sinusoid `70 + sin(i/4)*20` and the noise of the history are passed in as one sample per hour, since trigonometry has no counterpart here.
- The `catch` path of `handleProcessing` only logs; the simulated pipeline cannot fail, so it is not modelled. `console.log` calls are not modelled either.
- The payload's timestamp is an ISO string in the source; the model keeps the millisecond value.
- The `alertSent` flag belongs to one mounted modal. A new result arriving while the modal stays mounted would not reset it; the model keeps one panel per result.
- The `default` branches of the severity colour and icon switches cannot be reached with the typed severities, so they are not modelled.
- Dashboard.SortByScore: the contract states ordering and permutation but not that equal scores keep their order (JavaScript's sort is stable).
- MockData.GenerateMockToilets: the predicted-dirty time is bounded by `now + 2h` inclusive, because truncation toward zero can reach the bound when `now` is negative.
- The header, station cards, detail modal, analytics chart and build configuration are not part of this model.
