# Noisewatch core, modelled in Dafny

Noisewatch is a crowd-sourced noise map of Tirana. A phone page measures the
ambient level from the microphone, asks for the device's location and posts a
report; the server checks and calibrates the report and stores it; a map page
clusters the last day's reports into coloured circles. A PHP script fronts the
Node.js server, a service worker caches the static pages, and a small script
switches the colour theme.

This project models that core:

- `Js`, `Text`, `AudioLevel`: the JavaScript and PHP values and string
  operations the scripts rely on (numbers with NaN and infinities,
  `Math.round`, `parseFloat`, `trim`, `strtolower`), and the RMS level
  computation both report pages share.
- `Calibration`, `Geofence`, `ReportsApi`, `LegacyReportsApi`: the two
  revisions of `POST /api/reports` — field checks in order, dBFS
  recalibration with a configurable offset, the 0..200 clamp, the ray-casting
  polygon test and the severity label.
- `Reporter`, `LegacyReporter`: the two revisions of the report page's
  `NoiseReporter` object as a state datatype with one transition per event
  (an awaited position, maps script or request splits its handler into two
  events, with a count of what is still pending), a class whose methods keep
  their fields equal to those transitions, the interleavings that break the
  pages' form invariant as written, and the invariant proved over arbitrary
  event sequences for the pages as evidently intended.
- `Clustering`, `HeatWeights`: the newer map page (recency filter, greedy
  clustering with running means, circle colour and radius, the detail list)
  and the older heat-map weighting.
- `Proxy`: the request forwarding and response relaying of `index.php`.
- `ServiceWorker`: the routing, caching and cache pruning of `public/sw.js`.
- `Theme`: the theme switcher of `public/js/theme-switch.js`.

Browser services (geolocation, microphone streams, audio decoding, `fetch`,
the clock), the upstream HTTP exchange of the proxy and the network of the
service worker are parameters of the operations that use them.

## Model

| member | source | states |
|---|---|---|
| Js.ParseFloat | routes/api.mysql.js:93-94 | a number parses to itself, a string through the engine, an array as its comma-joined text; `undefined`, `null`, booleans and plain objects parse to NaN |
| Js.ElementText | routes/api.mysql.js:93-94 | a string element reads as itself and `undefined` or `null` as the empty text |
| Js.JoinText | routes/api.mysql.js:93-94 | a one-element array joins to its element's text, and n elements give at least n - 1 characters of commas |
| Js.SingletonArrayParsesAsElement | routes/api.mysql.js:93-94 | `parseFloat([x])` is `parseFloat(x)` for a string x |
| Js.Utf16Units | routes/api.mysql.js:70 | a character takes one or two UTF-16 code units |
| Js.Utf16Length | routes/api.mysql.js:70 | a string's `length` lies between its number of characters and twice that |
| Js.Utf16LengthCountsCharsInBmp | routes/api.mysql.js:70 | `length` counts characters exactly when every character is in the Basic Multilingual Plane, in both directions |
| Js.Utf16LengthAppend | routes/api.mysql.js:70 | `length` adds up over concatenation |
| Js.Round | routes/api.mysql.js:80 | `Math.round` gives the integer within half of its argument, halves rounding up |
| Js.RoundProperties | routes/api.mysql.js:80-84 | rounding fixes integers and is monotone |
| Js.RoundBetween | public/js/report-logic.js:490-492 | a value between two integers rounds to a value between them |
| Text.TrimStart | public/js/report-logic.js:524 | the result is a suffix of the input, the removed prefix is all white space, and the result does not start with white space |
| Text.TrimEnd | public/js/report-logic.js:524 | the result is a prefix of the input, the removed suffix is all white space, and the result does not end with white space |
| Text.BlankCons | public/js/report-logic.js:524 | prepending a white-space character to a blank string keeps it blank |
| Text.BlankSnoc | public/js/report-logic.js:524 | appending a white-space character to a blank string keeps it blank |
| Text.TrimEmptyIffBlank | public/js/report-logic.js:524 | `trim()` is empty exactly when every character is white space, in both directions |
| Text.TrimKeepsInner | public/js/report-logic.js:524 | a string without white space at either end is its own trim |
| Text.TrimIdempotent | public/js/report-logic.js:540-559 | trimming the already trimmed description changes nothing |
| Text.LowerChar | index.php:35 | `strtolower` maps each of A-Z to the letter 32 code points on, in a-z, and leaves every other character alone |
| Text.Lower | index.php:118 | lower-casing keeps the length and lower-cases each character in place |
| AudioLevel.SilentSumsToZero | public/js/report-logic.js:460-466 | a channel of zero samples has a zero sum of squares |
| AudioLevel.RmsOf | public/js/report-logic.js:460-466 | no samples give NaN, a zero sum gives 0 (the silent case), and an all-zero channel is silent |
| AudioLevel.CalculateRms | public/js/report-logic.js:460-466 | the accumulating loop computes the RMS case of the whole channel |
| AudioLevel.RoundNum | public/js/report-logic.js:491 | `Math.round` rounds finite values and leaves NaN and the infinities as they are |
| AudioLevel.ParsedDb | public/js/report-logic.js:492 | `parseInt` of the shown text is a number exactly when the shown level was finite |
| AudioLevel.DisplayRoundTrip | public/js/report-logic.js:491-492 | writing a rounded finite level and parsing it back gives the rounded value |
| Calibration.Offset | routes/api.mysql.js:78 | the offset is the configured number unless that is NaN or 0, in which case it is 115; it is never NaN or 0 |
| Calibration.Clamp | routes/api.mysql.js:88-90 | the result lies in 0..200 and equals the input when the input does |
| Calibration.Calibrate | routes/api.mysql.js:77-90 | the stored value lies in 0..200; a reading rounding above -1 is stored rounded and clamped; one rounding to -1 or below is shifted by the rounded offset first |
| Calibration.RoundShift | routes/api.mysql.js:84 | rounding an integer plus an offset is the integer plus the rounded offset |
| Calibration.DefaultRecalibration | routes/api.mysql.js:77-90 | with no offset configured a dBFS reading r is stored as r + 115, clamped; -20 is stored as 95 |
| Calibration.CalibrateIdempotent | routes/api.mysql.js:77-90 | a stored value submitted again is stored unchanged |
| Geofence.Prev | routes/api.mysql.js:13 | the loop's `j` is the previous index, wrapping to the last one at 0 |
| Geofence.CrossingCount | routes/api.mysql.js:13-19 | at most one crossing per edge |
| Geofence.PointInPolygon | routes/api.mysql.js:10-21 | the loop's result is the even-odd rule over the ring's crossing edges; null, a non-array and an empty ring are outside |
| Geofence.HorizontalEdgeNeverCrosses | routes/api.mysql.js:17 | an edge whose ends share a latitude never counts, so the division is never by zero |
| Geofence.CrossesSymmetric | routes/api.mysql.js:17 | an edge counts the same whichever way it is walked |
| Geofence.DegenerateRingOutside | routes/api.mysql.js:10-21 | a ring of at most two positions contains no point |
| Geofence.ClosedPrefixCount | routes/api.mysql.js:13-19 | a closed ring and its open form cross the same edges except for the closing pair |
| Geofence.ClosingPositionIrrelevant | routes/api.mysql.js:10-21 | repeating the first position at the end, as GeoJSON closes rings, does not change the answer |
| Geofence.Rectangle | routes/api.mysql.js:14-15 | a rectangle as a four-position ring of `[lng, lat]` pairs |
| Geofence.RectangleIsHalfOpenBox | routes/api.mysql.js:10-21 | on a rectangle the test is exactly the box closed at the south and west, open at the north and east |
| Geofence.MeridianEdge | routes/api.mysql.js:17 | an edge along a meridian counts exactly when it spans the latitude east of the point |
| ReportsApi.SeverityOf | routes/api.mysql.js:106-113 | very high above 100, loud in 81..100, normal in 51..80, quiet at 50 or below, each an if-and-only-if |
| ReportsApi.SeverityMatchesStats | routes/api.mysql.js:168-171 | the four bands the stats query counts are the four stored severities |
| ReportsApi.CreateReport | routes/api.mysql.js:55-131 | each 400 reason holds exactly when the earlier checks pass and its own fails, a description being too long when its UTF-16 length or its array length exceeds 255; a 201 carries the calibrated decibels in 0..200, their severity, the description, and finite parsed coordinates inside the polygon when one is loaded |
| ReportsApi.ScenarioTrafficNoise | routes/api.mysql.js:55-131 | a 65 dB report inside the area is stored as 65, normal |
| ReportsApi.ScenarioOriginRejected | routes/api.mysql.js:98-103 | a report at (0, 0) is refused as outside the area |
| ReportsApi.ScenarioDbfsReading | routes/api.mysql.js:77-113 | a -20 dBFS reading is stored as 95, loud |
| ReportsApi.ScenarioLongDescription | routes/api.mysql.js:70-72 | a 256-character description is refused whatever the other fields |
| ReportsApi.ScenarioAstralDescription | routes/api.mysql.js:70-72 | 128 emoji, 256 UTF-16 code units, are refused as too long |
| ReportsApi.AstralOnlyDoubles | routes/api.mysql.js:70 | a string of characters outside the Basic Multilingual Plane is twice as long in code units |
| ReportsApi.ScenarioArrayCoordinates | routes/api.mysql.js:93-113 | coordinates sent as one-element arrays are read as the numbers inside and the report is stored |
| ReportsApi.ScenarioArrayDescription | routes/api.mysql.js:70-72 | a 256-element array description is refused as too long |
| LegacyReportsApi.CreateReport | routes/api.js:25-68 | the same three 400 reasons in the same order, length in UTF-16 code units or array elements; every valid body is inserted with the calibrated decibels and the coordinates as given, longitude as x |
| LegacyReportsApi.NewerHandlerRefinesOlder | routes/api.js:32-60 | the newer handler refuses everything the older one refuses, for the same reason, and stores the same decibels when it accepts |
| HeatWeights.Decibels | maplogic.js:65 | `Number(x) \|\| 0` is never NaN: NaN becomes 0 and every other value is kept |
| HeatWeights.WeightTiers | maplogic.js:66-75 | the five weight tiers, each band open below and closed above |
| HeatWeights.NotANumberIsQuietest | maplogic.js:65-66 | a missing decibel value weighs as 0 dB, the lowest tier |
| HeatWeights.WeightBounds | maplogic.js:66-75 | every weight lies in 0.1..0.85, so no single report saturates the map |
| HeatWeights.AboveMonotone | maplogic.js:67-73 | a louder value exceeds every threshold the quieter one does |
| HeatWeights.WeightMonotone | maplogic.js:66-75 | a louder report never weighs less |
| HeatWeights.HeatData | maplogic.js:62-80 | one point per report, in order, with its coordinates and the weight of its decibels, in range |
| HeatWeights.HeatDataDistributes | maplogic.js:62 | the points of two batches are the two batches' points |
| Clustering.Recent | public/js/maplogic.js:91-95 | exactly the reports with a parsable date in the last 24 hours are kept |
| Clustering.RecentDistributes | public/js/maplogic.js:92-95 | the filter keeps the survivors in their original order |
| Clustering.Placed | public/js/maplogic.js:101-104 | only reports with both coordinates are placed |
| Clustering.FirstNear | public/js/maplogic.js:106-109 | the index found is of a near cluster with no near cluster before it, or past the end when none is near |
| Clustering.Place | public/js/maplogic.js:100-120 | a report with a NaN coordinate changes nothing; another joins the first near cluster, leaving the rest alone, or starts a new one at the end |
| Clustering.JoinKeepsWellFormed | public/js/maplogic.js:111-116 | the running-mean update keeps the centroid at the members' mean and the total at their sum |
| Clustering.MeanStep | public/js/maplogic.js:115-116 | folding one value into a mean of m values gives the mean of m + 1 |
| Clustering.MembersAppend | public/js/maplogic.js:118 | a new cluster adds exactly its reports to the members |
| Clustering.MembersConcat | public/js/maplogic.js:97-120 | members of concatenated cluster lists add up |
| Clustering.MembersUpdate | public/js/maplogic.js:111-112 | replacing one cluster trades exactly its members for the new ones |
| Clustering.MembersContains | public/js/maplogic.js:97-120 | a report of any cluster is a member |
| Clustering.UpdateKeepsWellFormed | public/js/maplogic.js:111-116 | replacing a cluster by a well-formed one keeps all well formed |
| Clustering.SingletonWellFormed | public/js/maplogic.js:118 | a new cluster sits on its one report |
| Clustering.PlaceKeepsInvariant | public/js/maplogic.js:100-120 | one step keeps every cluster well formed and adds a placed report to exactly one cluster |
| Clustering.ClustersInvariant | public/js/maplogic.js:97-120 | after the pass the members are exactly the placed reports, with multiplicity, every cluster is well formed and there are no more clusters than reports |
| Clustering.ClusteredReportsAreRecent | public/js/maplogic.js:91-120 | every clustered report passed the 24-hour filter |
| Clustering.Find | public/js/maplogic.js:106-109 | the scan returns the first near cluster's index |
| Clustering.PlaceReport | public/js/maplogic.js:100-120 | the forEach body computes one placement step |
| Clustering.BuildClusters | public/js/maplogic.js:91-120 | the filter and the clustering loop produce the clusters of the recent reports, with the invariant above |
| Clustering.ScenarioTwoNearbyReportsMerge | public/js/maplogic.js:97-120 | two reports about 14 m apart form one cluster at their midpoint |
| Clustering.SumDbBounds | public/js/maplogic.js:113 | a decibel total lies between count times the smallest and count times the largest member |
| Clustering.AverageWithinMembers | public/js/maplogic.js:125-126 | the rounded average lies between the quietest and the loudest member |
| Clustering.MeanBetween | public/js/maplogic.js:126 | a total bounded by n·lo and n·hi averages into lo..hi |
| Clustering.CircleColourFollowsSeverity | public/js/maplogic.js:128-132 | the four circle colours are the server's four severities, each an if-and-only-if |
| Clustering.ClusterCircle | public/js/maplogic.js:135-145 | the circle sits on the centroid, is 40 m plus 5 m per report wide, and has the colour of the rounded average |
| Clustering.RadiusGrowsPerMember | public/js/maplogic.js:143 | a joining report widens the circle by 5 m |
| Clustering.Insert | public/js/maplogic.js:52 | insertion adds exactly the one report |
| Clustering.InsertOrdered | public/js/maplogic.js:52 | inserting into a newest-first list keeps it newest first |
| Clustering.HeadNoOlderThanInserted | public/js/maplogic.js:52 | a head newer than the inserted report stays newer than everything after it |
| Clustering.NewestFirst | public/js/maplogic.js:52 | the sort is a permutation of the members and orders them newest first |
| Clustering.StampedAt | public/js/maplogic.js:52 | the reports with one timestamp are no more than the reports |
| Clustering.InsertKeepsTies | public/js/maplogic.js:52 | an inserted report goes in front of the reports already there with its timestamp, and the others keep their order |
| Clustering.NewestFirstKeepsTies | public/js/maplogic.js:52 | the sort is stable: reports sharing a timestamp come out in the order they went in |
| Clustering.LatestIsNewest | public/js/maplogic.js:52 | the first listed report is at least as new as every member |
| Clustering.EscapeLt | public/js/maplogic.js:58 | the escaped text contains no `<` and is no shorter |
| Clustering.EscapeDistributes | public/js/maplogic.js:58 | escaping works character by character |
| Clustering.EscapeKeepsPlainText | public/js/maplogic.js:58 | text without `<` is shown unchanged |
| Clustering.ItemColourFollowsSeverity | public/js/maplogic.js:62-65 | the list colours merge the two loudest severities into red and match the other two |
| Clustering.ModalItems | public/js/maplogic.js:44-77 | one item per member in newest-first order, each escaped and coloured by its own value |
| Clustering.ModalListsEveryMember | public/js/maplogic.js:54-77 | every member is listed |
| Clustering.ModalListsOnlyMembers | public/js/maplogic.js:54-77 | only members are listed |
| Reporter.EvaluateBoundsEffect | public/js/report-logic.js:251-270 | without a location nothing changes; with one, `withinBounds` agrees with the box and a location outside disables submit; nothing else changes |
| Reporter.OutsideAreaDisablesSubmit | public/js/report-logic.js:198-199 | a fix outside the box leaves submit disabled whatever else holds |
| Reporter.LocationFixGate | public/js/report-logic.js:198-199 | after a fix, submit is enabled exactly when the fix is in the box, the description is not blank and a level is shown |
| Reporter.BlankDescriptionDisablesSubmit | public/js/report-logic.js:516-530 | a blank description never enables submit |
| Reporter.StopIdempotent | public/js/report-logic.js:340-372 | a stop ends the recording and a second stop changes nothing |
| Reporter.StopSparesPreGranted | public/js/report-logic.js:340-372 | the pre-granted stream is never stopped and stays active; any other active stream is stopped and cleared |
| Reporter.ButtonRecordingKeepsStream | public/js/report-logic.js:117-153 | a recording from the start button, at once on the kept stream or on the requested stream once it arrives, runs on the kept stream, which its stop does not end |
| Reporter.SecondClickLeaksStream | public/js/report-logic.js:117-145 | two clicks on the start button before the first stream arrives start two recorders, and the first stream ends up neither kept nor stopped, so no stop reaches it |
| Reporter.TimerAfterStopIsNoOp | public/js/report-logic.js:325-329 | after a manual stop the timer does nothing, in both versions |
| Reporter.StaleTimerIgnored | public/js/report-logic.js:325-329 | the corrected timer leaves any later recording alone |
| Reporter.StaleTimerCutsNextRecording | public/js/report-logic.js:325-329 | as written, a first recording's timer stops a second recording started within five seconds; the corrected one does not |
| Reporter.ClampLevel | public/js/report-logic.js:486 | the level lies in -100..200 and is unchanged inside that range |
| Reporter.RmsToDb | public/js/report-logic.js:468-488 | silence is minus infinity, no samples NaN, and a measured sound the offset level in -100..200, unclamped when in range |
| Reporter.BandThresholds | public/js/report-logic.js:496-509 | the four bands over whole values, each an if-and-only-if; NaN and minus infinity show as quiet |
| Reporter.ProcessShowsLevel | public/js/report-logic.js:434-458 | a processed recording always shows a level; a measured sound reads back as a number in -100..200, any other as no number |
| Reporter.ResetClears | public/js/report-logic.js:597-607 | a reset forgets the location, hides the level and disables submit |
| Reporter.SettleEnds | public/js/report-logic.js:570-594 | an answer labels the button Submit with one request fewer pending and an accepted one clears the form; as written the button is enabled whatever the form holds, as intended exactly when the form is ready |
| Reporter.SubmitGuards | public/js/report-logic.js:532-560 | the three refusals hold exactly in their order and change nothing; a sent report carries the trimmed description, the shown value and the location, and disables the button with one more request pending |
| Reporter.SilentRecordingIsNeverSent | public/js/report-logic.js:468-549 | a silent recording shows a level yet is refused as no recording |
| Reporter.RecordingEventsKeepForm | public/js/report-logic.js:272-372 | microphone and timer events change none of the form's fields, in both versions of the page |
| Reporter.FormEventsRecheck | public/js/report-logic.js:434-458 | typing and a decoded recording end in `checkFormValidity` and leave the location and the area flag alone |
| Reporter.MapsScriptRechecks | public/js/report-logic.js:192-199 | once the maps script settles, a waiting fix rechecks the area and the form; with no fix waiting nothing changes |
| Reporter.PressKeepsForm | public/js/report-logic.js:532-552 | a press changes none of the form's fields and can only disable the button |
| Reporter.StepKeepsSettledBounds | public/js/report-logic.js:174-199 | as written, every event keeps `withinBounds` in step with the location whenever no fix waits for the maps script |
| Reporter.RunKeepsSettledBounds | public/js/report-logic.js:174-199 | the same over any event sequence |
| Reporter.InitialInvariant | public/js/report-logic.js:1-27 | the constructed page satisfies the form invariant and readiness |
| Reporter.CheckedIsReady | public/js/report-logic.js:522-530 | right after `checkFormValidity` submit is enabled only for a complete form |
| Reporter.SameFormSameReadiness | public/js/report-logic.js:522-530 | events that leave the form's fields and the button alone keep the invariant |
| Reporter.StepKeepsInvariantOutsideWindows | public/js/report-logic.js:57-63 | as written, every event keeps the invariant except a position arriving before the maps script has loaded and the server's answer |
| Reporter.FailedAnswerReenablesOutside | public/js/report-logic.js:551-594 | as written, a press, a position outside the area and a failed answer leave the button enabled with a request for the outside coordinates, which the next press sends |
| Reporter.FailedAnswerRun | public/js/report-logic.js:551-594 | that sequence is a run of the page's events |
| Reporter.RunThree | public/js/report-logic.js:57-63 | a run of three events is the three steps in turn |
| Reporter.PressBeforeMapsSendsUncheckedFix | public/js/report-logic.js:174-199 | as written, a position outside the area arriving before the maps script loaded leaves a ready button enabled, and a press sends the outside coordinates |
| Reporter.SameFormStillReady | public/js/report-logic.js:522-530 | events that leave the form's fields and the button alone keep readiness |
| Reporter.LocationArrivedCheckedKeepsReady | public/js/report-logic.js:174-199 | checking a position as soon as it is stored keeps the page ready |
| Reporter.SettleCheckedKeepsReady | public/js/report-logic.js:591-594 | a `finally` block that rechecks the form keeps the page ready whatever happened while the request was out |
| Reporter.FixedStepKeepsReady | public/js/report-logic.js:57-63 | on the corrected page every event keeps readiness: an enabled button means a complete form inside the area |
| Reporter.FixedRunKeepsReady | public/js/report-logic.js:57-63 | the same over any interleaving of events |
| Reporter.SentReportsComeFromServiceArea | public/js/report-logic.js:532-595 | on the page with the corrected `finally` and location check, after any interleaving of events an enabled button means a location inside the service area, a level shown and a description, and every press that sends posts coordinates inside the area |
| Reporter.NoiseReporter.constructor | public/js/report-logic.js:1-27 | the object starts in the initial state |
| Reporter.NoiseReporter.EvaluateBoundsAndUI | public/js/report-logic.js:251-270 | the fields after the call are the bounds transition of those before |
| Reporter.NoiseReporter.CheckFormValidity | public/js/report-logic.js:522-530 | the button's disabled flag becomes the negated four-way gate |
| Reporter.NoiseReporter.OnPosition | public/js/report-logic.js:174-192 | the location is stored; with the maps script loaded the area and form are checked at once, otherwise one more fix waits |
| Reporter.NoiseReporter.OnMapsScriptSettled | public/js/report-logic.js:192-199 | a waiting fix goes on to check the area and the form once the maps script loaded or failed |
| Reporter.NoiseReporter.UpdateCharCount | public/js/report-logic.js:516-520 | the fields follow the edit transition |
| Reporter.NoiseReporter.StartRecording | public/js/report-logic.js:272-338 | the fields follow the start transition and the timer is numbered by the new recording |
| Reporter.NoiseReporter.RequestMicrophoneThenRecord | public/js/report-logic.js:117-145 | the fields follow the click transition: a kept stream is recorded from at once, exactly as `started` says; otherwise one more stream is requested |
| Reporter.NoiseReporter.OnMicrophoneGranted | public/js/report-logic.js:142-145 | the fields follow the arrival transition: the arrived stream becomes the kept one and is recorded from |
| Reporter.NoiseReporter.PromptMicrophonePermission | public/js/report-logic.js:67-109 | the obtained stream becomes the kept one |
| Reporter.NoiseReporter.StopRecording | public/js/report-logic.js:340-372 | the fields follow the stop transition |
| Reporter.NoiseReporter.OnAutoStopTimer | public/js/report-logic.js:325-329 | the timer callback as written: whatever recording is running is stopped |
| Reporter.NoiseReporter.DisplayDbLevel | public/js/report-logic.js:490-514 | the shown value, band and display follow the display transition |
| Reporter.NoiseReporter.ProcessRecording | public/js/report-logic.js:434-458 | the fields follow the processing transition of the channel's RMS |
| Reporter.NoiseReporter.ResetForm | public/js/report-logic.js:597-607 | the fields follow the reset transition |
| Reporter.NoiseReporter.SubmitReport | public/js/report-logic.js:532-562 | the body posted is the submission of the state before, posted exactly when the guards pass, and the fields follow the transition up to the awaited request |
| Reporter.NoiseReporter.OnResponse | public/js/report-logic.js:562-594 | the fields follow the answer transition as written: an accepted report resets the form and the `finally` block re-enables the button |
| LegacyReporter.LocationFixGate | report-logic.js:65-77 | any location counts: after a fix submit is enabled exactly when the description is not blank and a level is shown |
| LegacyReporter.StopIdempotent | report-logic.js:146-162 | a stop ends the recording and a second stop changes nothing |
| LegacyReporter.StopEndsStream | report-logic.js:146-154 | every recording's own stream is stopped when it ends |
| LegacyReporter.TimerAfterStopIsNoOp | report-logic.js:134-138 | after a manual stop the timer does nothing, in both versions |
| LegacyReporter.StaleTimerIgnored | report-logic.js:134-138 | the corrected timer leaves any later recording alone |
| LegacyReporter.StaleTimerCutsNextRecording | report-logic.js:134-138 | as written, a first recording's timer stops a second recording started within five seconds; the corrected one does not |
| LegacyReporter.RmsToDb | report-logic.js:234-237 | silence is minus infinity, no samples NaN, and a measured sound its dBFS level with no offset or clamp |
| LegacyReporter.BandThresholds | report-logic.js:245-260 | the five bands over whole values, each an if-and-only-if; NaN and minus infinity show as quiet |
| LegacyReporter.QuietAgreesAcrossRevisions | report-logic.js:245-260 | the two revisions' bands agree on what is quiet |
| LegacyReporter.ProcessShowsRawLevel | report-logic.js:200-241 | the shown value is the rounded dBFS level |
| LegacyReporter.ResetClears | report-logic.js:338-348 | a reset forgets the location, hides the level and disables submit |
| LegacyReporter.SubmitGuards | report-logic.js:283-335 | a report is refused exactly when the location, the description or the level is missing, and a refusal changes nothing; a sent one carries the form's values and leaves one more request pending; an answer enables the button labelled Submit and an accepted one clears the form |
| LegacyReporter.SameRequestAsNewerPage | report-logic.js:286-311 | from the same fields both revisions send the same request |
| LegacyReporter.CheckedIsReady | report-logic.js:274-280 | right after `checkFormValidity` submit is enabled only for a complete form |
| LegacyReporter.SameFormSameReadiness | report-logic.js:274-280 | events that leave the form's fields and the button alone keep the invariant |
| LegacyReporter.RecordingEventsKeepForm | report-logic.js:87-162 | microphone and timer events change none of the form's fields, in both versions of the page |
| LegacyReporter.CheckingEventsMakeReady | report-logic.js:65-77 | a fix, typing and a decoded recording end in `checkFormValidity`, so an enabled button means a complete form |
| LegacyReporter.StepKeepsEnabledOnlyWhenReady | report-logic.js:37-43 | as written, every event but the server's answer keeps the invariant: an enabled button means a complete form or a submission refused before the network |
| LegacyReporter.AcceptedAnswerLeavesStaleLevel | report-logic.js:279-335 | as written, an edit during a pending request re-enables the button, a second press sends again, and the first answer's reset hides the level but keeps its text and leaves the button enabled |
| LegacyReporter.FailedAnswerSendsStaleLevel | report-logic.js:296-335 | as written, a failed second answer then enables the button with no level shown, and a press sends the earlier recording's level |
| LegacyReporter.SettleCheckedKeepsReady | report-logic.js:332-335 | a `finally` block that rechecks the form keeps the page ready |
| LegacyReporter.FixedStepKeepsReady | report-logic.js:37-43 | on the corrected page every event keeps readiness: an enabled button means a complete form |
| LegacyReporter.FixedRunKeepsReady | report-logic.js:37-43 | the same over any interleaving of events |
| LegacyReporter.SentReportsHadALevel | report-logic.js:283-336 | on the page with the corrected `finally`, after any interleaving of events an enabled button means a level shown, a location and a description |
| LegacyReporter.NoiseReporter.constructor | report-logic.js:3-15 | the object starts in the initial state |
| LegacyReporter.NoiseReporter.CheckFormValidity | report-logic.js:274-280 | the button's disabled flag becomes the negated three-way gate |
| LegacyReporter.NoiseReporter.OnLocation | report-logic.js:46-84 | the fields follow the location-fix transition |
| LegacyReporter.NoiseReporter.UpdateCharCount | report-logic.js:268-272 | the fields follow the edit transition |
| LegacyReporter.NoiseReporter.StartRecording | report-logic.js:87-144 | the fields follow the start transition and the timer is numbered by the new recording |
| LegacyReporter.NoiseReporter.StopRecording | report-logic.js:146-162 | the fields follow the stop transition |
| LegacyReporter.NoiseReporter.OnAutoStopTimer | report-logic.js:134-138 | the timer callback as written: whatever recording is running is stopped |
| LegacyReporter.NoiseReporter.ProcessRecording | report-logic.js:200-224 | the fields follow the processing transition of the channel's RMS |
| LegacyReporter.NoiseReporter.ResetForm | report-logic.js:338-348 | the fields follow the reset transition |
| LegacyReporter.NoiseReporter.SubmitReport | report-logic.js:283-319 | the body posted is the submission of the state before, posted exactly when the guards pass, and the fields follow the transition up to the awaited request |
| LegacyReporter.NoiseReporter.OnResponse | report-logic.js:313-335 | the fields follow the answer transition as written: an accepted report resets the form and the `finally` block re-enables the button |
| Proxy.TargetUrl | index.php:11 | the target is the upstream origin followed by the request URI unchanged |
| Proxy.TargetUrlInjective | index.php:11 | different request URIs go to different targets |
| Proxy.Forwarded | index.php:32-38 | no more header lines than incoming headers |
| Proxy.ForwardedDistributes | index.php:33-38 | headers are filtered one at a time, in order |
| Proxy.ForwardedExactly | index.php:33-38 | a line is forwarded for each header whose key is not `host` in any case, and every forwarded line comes from such a header |
| Proxy.ForwardHeaders | index.php:32-38 | the loop builds exactly the forwarded lines |
| Proxy.OutgoingRequest | index.php:11-39 | the upstream request has the target URL and the same method, a body exactly for POST, PUT and PATCH, and the forwarded headers |
| Proxy.SplitAt | index.php:102-103 | the header block and the body together are the response, the block being as long as the header size allows |
| Proxy.Explode | index.php:111 | at least one piece, the first a prefix of the input, none containing CRLF |
| Proxy.ExplodeRoundTrip | index.php:111 | joining the pieces with CRLF gives the header block back |
| Proxy.ImplodeExtendsFirst | index.php:111 | a character in front of the first piece lands in front of the joined text |
| Proxy.Relayed | index.php:112-125 | no more lines are relayed than the block has |
| Proxy.RelayedDistributes | index.php:112-125 | lines are relayed one at a time, in order |
| Proxy.RelayedOnlyKept | index.php:112-125 | only block lines are relayed, never an empty line, a status line, `Connection` or `Transfer-Encoding` |
| Proxy.RelayedKeepsOthers | index.php:112-125 | every other line is relayed |
| Proxy.RelayHeaders | index.php:112-125 | the loop emits exactly the relayed lines |
| Proxy.FoundCode | index.php:124 | the status PHP gives an unannounced redirect is 302 or 303 |
| Proxy.StatusAfterLocation | index.php:108-124 | after `http_response_code` and the `header()` calls the status is the upstream one unless some relayed line is a Location line and the code is neither 201 nor a 3xx, in which case it is the redirect code |
| Proxy.ScenarioFollowedRedirect | index.php:18-19 | a GET answered 200 after a redirect curl followed relays the hop's Location line and goes out as 302 |
| Proxy.ReplyTo | index.php:45-128 | a curl error gives 503 with the error page and no relayed headers; otherwise the relayed header lines and body, and the upstream status unless a relayed Location line turns a code other than 201 or a 3xx into 302, or 303 for a non-GET, non-HEAD HTTP/1.1 request |
| Proxy.ReplyKeepsResponse | index.php:98-128 | the relayed headers come from the header block, and block plus body are exactly the upstream response |
| Proxy.Handle | index.php:8-128 | the script sends the outgoing request and replies as above, status included |
| ServiceWorker.RouteOf | public/sw.js:35-56 | non-GET and map-provider requests pass through; a GET to `/api/` is network first exactly when neither holds |
| ServiceWorker.Lookup | public/sw.js:60 | a response is found exactly when some cache holds the URL, and it is the entry of the first such cache in creation order |
| ServiceWorker.Put | public/sw.js:64 | the first cache named `noisewatch-v1` gets the response under the URL and keeps its other entries; every other cache is left alone; the cache is created at the end when missing |
| ServiceWorker.PutKeepsOtherUrls | public/sw.js:60-64 | a put leaves the lookup of every other URL unchanged |
| ServiceWorker.IgnoredRequests | public/sw.js:38-44 | ignored requests get no answer from the worker and leave the caches alone |
| ServiceWorker.ApiIsNetworkFirst | public/sw.js:46-56 | API requests are answered from the network or with the offline JSON, and never cached |
| ServiceWorker.StaticIsCacheFirst | public/sw.js:58-70 | other GETs prefer the cached copy and fall back to the network |
| ServiceWorker.CacheWrittenOnlyOn200 | public/sw.js:61-66 | the cache changes only on a 200 for a revalidated request, and only the worker's own cache |
| ServiceWorker.PutStores | public/sw.js:64 | after a put the worker's cache holds the response under the URL |
| ServiceWorker.Pruned | public/sw.js:25-33 | exactly the caches named `noisewatch-v1` survive |
| ServiceWorker.Worker.constructor | public/sw.js:25-33 | the storage starts with the given caches |
| ServiceWorker.Worker.Activate | public/sw.js:25-33 | activation deletes every other cache |
| ServiceWorker.Worker.OnFetch | public/sw.js:35-71 | the handler answers and updates the caches as the fetch outcome says |
| Theme.Saved | public/js/theme-switch.js:41 | a missing or empty stored theme reads as `system`; any other is the stored one |
| Theme.ActiveFor | public/js/theme-switch.js:23-38 | a button is active exactly when its theme is the current one |
| Theme.ApplyEffect | public/js/theme-switch.js:6-21 | `system` forgets the stored theme and follows the system; any other name is stored; a name the class list accepts becomes the root's only override class and marks exactly its buttons active, while one it refuses leaves no override |
| Theme.Load | public/js/theme-switch.js:40-60 | with nothing stored the root is dark exactly when the system is, and never light; the listeners are registered exactly when the stored name is `system` or a valid class token, since `classList.add` throws otherwise |
| Theme.SystemChange | public/js/theme-switch.js:55-60 | only `dark` can change, and only when nothing is stored, to follow the system |
| Theme.LoadIsConsistent | public/js/theme-switch.js:40-42 | after loading, `light` means a stored light choice and `dark` a stored dark choice or a dark system with nothing stored |
| Theme.StepKeepsConsistent | public/js/theme-switch.js:44-60 | every click and system change keeps that consistency |
| Theme.RunKeepsConsistent | public/js/theme-switch.js:44-60 | any sequence of events keeps it |
| Theme.ChoiceOutlivesSystemChanges | public/js/theme-switch.js:55-60 | a stored choice and the root's classes survive any number of system changes |
| Theme.FailedLoadIgnoresEvents | public/js/theme-switch.js:40-60 | when the stored name throws in `classList.add`, no click or system change ever changes the page |
| Theme.ThemeSwitch.constructor | public/js/theme-switch.js:1-60 | the page starts in the loaded state, listening only when the load did not throw |
| Theme.ThemeSwitch.UpdateActiveButton | public/js/theme-switch.js:23-38 | the loop sets each button's flag to whether its theme is current |
| Theme.ThemeSwitch.ApplyTheme | public/js/theme-switch.js:6-21 | the fields follow the apply transition |
| Theme.ThemeSwitch.OnClick | public/js/theme-switch.js:45-52 | a click applies the clicked button's theme, and does nothing when the listeners were never registered |
| Theme.ThemeSwitch.OnSchemeChange | public/js/theme-switch.js:55-60 | the fields follow the system-change transition, and stay put when the listeners were never registered |

## Left out

- Browser services are inputs, not models: geolocation, `getUserMedia` and the permission prompts, `MediaRecorder`, `AudioContext` decoding, `fetch`, alerts and the DOM text the pages write.
- The live audio visualizer of both report pages draws on a canvas only and is not modelled.
- Floating point is not modelled: numbers are exact reals, and `Math.log10`, `Math.sqrt`, the engine's string parsing and its writing of numbers are parameters (`dbfs`, `parseText`, `numberText`).
- JSON objects are all alike to the model: an object parsed from the body has no `length` and reads as "[object Object]", so a body object with its own `length` key is not modelled.
- AudioLevel.RmsOf: the converse, that a zero sum of squares means every sample is zero, holds but is not stated, because it needs nonlinear reasoning over the whole channel.
- The insecure-context checks and the permission-state query of the microphone helpers are not modelled; they only write status text before giving up.
- The SQL queries and the Express plumbing are not modelled; the 201 response carries the row that would be inserted. GET /api/reports and GET /api/reports/stats are reduced to the stats bands.
- The optional report fields of the newer insert (device_info, source, accuracy_meters, audio_path) are not modelled.
- Loading the polygon file at start-up is not modelled: the boundary is a parameter, `Null` when the file has none.
- Dates are epoch milliseconds decided by the caller; `new Date(...)` parsing and `Date.now()` are inputs.
- `Number(...)` on the report fields of the map page is done by the caller: a coordinate that is NaN arrives as `None`.
- The engine's sort is modelled as an insertion sort; what the model proves of it (a permutation, newest first, ties in their original order) is what ECMAScript 2019 and later require of `Array.prototype.sort`, not the engine's algorithm.
- Google Maps objects (map, circles, markers, info windows, heat-map layer) are reduced to the values handed to them.
- The PHP `header()` call replaces an earlier field of the same name; the model keeps the list of calls, not the resulting header set.
- The status a relayed `Status:` line would set under a CGI server API, and a relayed `HTTP/` status line in lower case, are not modelled; the Location rule of `header()` is.
- `htmlspecialchars` and the markup of the proxy's error page are not modelled: the 503 body carries curl's message.
- curl's redirect following and 30-second timeout are part of the exchange, which is an input.
- The service worker's install handler (`cache.addAll` of the asset list) and `pwa-init.js` are not modelled; the revalidating `fetch` of a stale-while-revalidate request is taken to finish before the next event.
- The markup's initial state (dB display hidden, button disabled) is assumed, as the page's HTML is not part of this model.
- The reload of the opener or parent window after an accepted report is not modelled.
- The form's submit event is taken to arrive only while the submit button is enabled, as browsers dispatch it.
- Google Maps already present on the page before the first fix (`window.google.maps` set by another script) is not modelled: the newer page starts with the maps script not loaded, and each waiting fix settles by its own load event.
- The `await` of an already loaded maps script is a microtask, taken to finish before any other event; the pages' other awaits (the position, the script load, the request, the microphone stream of the newer page's start button) are separate events. The enable-microphone button of the newer page and the start button of the older page change nothing before their `getUserMedia` await, so each is modelled by the arrival of its stream.
- The start button's `disabled` flag (set by `startRecording`, cleared by `stopRecording`) is not modelled: the model also lets the start button be clicked while a recording runs, which browsers do not dispatch; what it proves about every event sequence holds all the more of the sequences browsers allow.
- The submit button's opacity and `pointer-events` styling, which `evaluateBoundsAndUI` sets for a location outside the area and the `finally` block does not undo, is not modelled: after the failed answer of `Reporter.FailedAnswerReenablesOutside` the button ignores pointer clicks and taps, and the second submit must come from the keyboard.
- The fallbacks `activeTheme || localStorage.getItem('theme')` in `updateActiveButton` are modelled, but from `applyTheme` the first is always taken.

## Findings

| source | as written | input that shows it | evidently intended | confidence | as-written member | corrected member |
|---|---|---|---|---|---|---|
| public/js/report-logic.js:325-329 | the 5-second auto-stop timer stops whatever recording is running when it fires | start a recording, stop it by hand, start a second one within 5 s: the first timer ends the second recording early | each timer stops only the recording that armed it | medium; not executed | Reporter.StaleTimerCutsNextRecording | Reporter.StaleTimerIgnored |
| report-logic.js:134-138 | the same timer in the older page stops whatever recording is running | the same sequence on the older page | each timer stops only the recording that armed it | medium; not executed | LegacyReporter.StaleTimerCutsNextRecording | LegacyReporter.StaleTimerIgnored |
| public/js/report-logic.js:551-594 | the `finally` block of `submitReport` re-enables the button whatever happened while the request was out | a complete form inside the area; press Submit; while the request is out, "Update location" gives a position outside the area, which disables the button and blocks pointer events on it; the answer fails and `finally` enables it; a second submit from the keyboard (the focused button activated with Enter or Space) posts the outside coordinates, as no guard checks `withinBounds` | `finally` restores the label and leaves the button to `checkFormValidity` | medium; not executed | Reporter.FailedAnswerReenablesOutside | Reporter.SettleCheckedKeepsReady |
| public/js/report-logic.js:174-199 | `getCurrentLocation` stores the new position before awaiting the maps script and checks the area only after it settles | after the maps script failed to load (so `_mapsLoaded` is false, while the earlier fix was area-checked once the load failed), a ready form receives a position outside the area; a press before the reloaded script settles posts the outside coordinates | the area and the form are checked as soon as the position is stored | medium; not executed | Reporter.PressBeforeMapsSendsUncheckedFix | Reporter.LocationArrivedCheckedKeepsReady |
| report-logic.js:279-335 | the older page's `finally` block re-enables the button whatever the form holds | press Submit; edit the description, which re-enables the button; press again; the first answer is accepted and resets the form, hiding the level but keeping its text; a new fix and description; the second answer fails and `finally` enables the button; a press posts the earlier level although none is shown | `finally` restores the label and leaves the button to `checkFormValidity` | medium; not executed | LegacyReporter.FailedAnswerSendsStaleLevel | LegacyReporter.SettleCheckedKeepsReady |
