# Robot run analysis and mission-control front end, modelled in Dafny

The system records a competition robot's runs. The robot keeps an event log
in its EEPROM: start, zone changes, shots, obstacles and stops, each with a
zone id and a timestamp. The backend (`backend/app.py`) stores each log as a
run document (`POST /ingest`). It also computes statistics over a run
(`POST /analyze`):
- the sequence of zones visited;
- how often each event happened;
- how long the robot stayed in each zone;
- the issues these show: zones it was stuck in, and going back and forth
  between zones.

The React front end has a mission-control dashboard with RGB sensor bars, a
coloured zone display and a 3D model viewer. It also has two scroll-driven
animations of the robot on a track, and a CRT overlay with a hidden key
sequence that starts a mock self-destruct.

This project models each of these parts:

| file | module | models |
|---|---|---|
| `wrappers.dfy` | `Wrappers` | `Option`, for JSON fields that may be missing |
| `dicts.dfy` | `Dicts` | Python's insertion-ordered `str -> int` dictionaries, as association lists |
| `run_log.dfy` | `RunLog` | the event/zone tables, log normalisation, `POST /ingest`, `serialize_doc` |
| `run_analysis.dfy` | `RunAnalysis` | the statistics and issues of `POST /analyze`, and its error replies |
| `geometry.dfy` | `Geometry` | points and poses, the look-ahead clamp, the SVG/trigonometry primitives (uninterpreted) |
| `scroll_robot.dfy` | `ScrollRobot` | the mission-track animation: the zone ladder, the guarded change handler |
| `background_robot.dfy` | `BackgroundRobot` | the background animation: the progress remap, the ball's roll and settle rule, its spin, the captions |
| `crt_overlay.dfy` | `CrtOverlay` | the key-sequence matcher, the countdown, joke and reset, the CRT toggle |
| `dashboard.dfy` | `Dashboard` | the sensor bar width, the channel defaults, the zone colour |
| `model_viewer.dfy` | `ModelViewer` | splitting the model URLs into base path and file name; deriving the MTL URL |
| `text.dfy` | `Text` | JavaScript's `indexOf` and `includes` for a string pattern, used by the dashboard and the model viewer |

Each source file keeps its own form in the model:
- Loops become methods with loop invariants. Each is proved against a
  specification function, and the lemmas beside it prove what the
  source promises about that function. These loops are the normalisation,
  the event summary, the zone times, the stuck issues and the oscillation
  count.
- Components whose handlers update state become classes:
  - `ScrollRobot.RobotAnimation`
  - `BackgroundRobot.BackgroundAnimation`
  - `CrtOverlay.Overlay`
  - `RunLog.Document`, which `serialize_doc` changes in place.

  The methods state their new state in terms of a pure function, such as
  `Handle` or `Advance`, and the lemmas are about that function.
- Pure expressions become functions. Examples are the dashboard helpers,
  the URL splitting and the zone ladder.

Progress values, distances and pixel coordinates are Dafny `real`, which is
exact. Python integers are unbounded, so they are `int`.

## Model

| member | source | states |
|---|---|---|
| RunLog.EventNameSpec | backend/app.py:44-51 | an event is "Unknown" exactly when its code is outside 1..6; it is "ZoneChange" exactly for code 2 |
| RunLog.ZoneNameSpec | backend/app.py:53-60 | a zone is "Unknown" exactly for id 5 or an id outside 0..5 |
| RunLog.NormalizeSpec | backend/app.py:98-108 | a processed entry keeps the whole raw entry, including its other fields such as `state`, and its three numbers, with 0 for a missing field; both names come from the tables; a missing event reads "Unknown", missing data reads zone "Start" |
| RunLog.NormalizeLogs | backend/app.py:98-109 | one processed entry per raw entry, same length, same order |
| RunLog.Ingest | backend/app.py:92-127 | 400 "No data provided" for a missing or empty body; 400 "Missing 'logs' field" without `logs`; otherwise 201 with a new unanalysed document whose entries are the normalised entries in order, count equal to the input length, and defaults "unknown", 0 and {} |
| RunLog.SerializedFieldsSpec | backend/app.py:67-72 | the fields stay the same set; `_id` always becomes text, an ObjectId its hex and a string itself; each present datetime timestamp becomes its ISO text and any other timestamp is kept; every other field is unchanged |
| RunLog.Serialize | backend/app.py:63-72 | `None` gives `None`; otherwise the document itself is converted in place and returned |
| RunLog.SerializeNothing | backend/app.py:65-66 | `serialize_doc(None)` is `None` |
| Dicts.AccumulateGet | backend/app.py:218 | `d[k] = d.get(k, 0) + delta` raises k's value by delta and changes no other key's value |
| Dicts.AccumulateKeys | backend/app.py:218 | an existing key keeps its place, a new key is appended (insertion order) |
| Dicts.AccumulateUnique | backend/app.py:226 | the keys stay unique |
| Dicts.AccumulateSum | backend/app.py:218 | the sum of the values grows by delta |
| Dicts.AccumulateAtLeast | backend/app.py:226 | a lower bound on all values is kept when delta respects it |
| Dicts.SumUpToUpdate | backend/app.py:218 | replacing one value changes a prefix sum by the difference |
| Dicts.SumUpToAppend | backend/app.py:218 | appending an entry leaves the earlier prefix sums unchanged |
| Dicts.FindUnique | backend/app.py:218 | a key lookup finds the first position of the key |
| RunAnalysis.ZoneSequenceSpec | backend/app.py:214 | the zone sequence is the zones of the ZoneChange entries: one per ZoneChange and no others, in strictly increasing log position, every ZoneChange included |
| RunAnalysis.SummarizeEvents | backend/app.py:215-218 | the loop's summary has each event once, counts each event's entries exactly (at least 1), and its counts add up to the number of entries |
| RunAnalysis.SummarySpec | backend/app.py:215-218 | each event once; each count equals the number of entries with that event, with "Unknown" for a missing name; every count is at least 1; the counts add up to the number of entries |
| RunAnalysis.SummaryKeys | backend/app.py:215-218 | an event is a key of the summary exactly when it occurs |
| RunAnalysis.ComputeZoneTimes | backend/app.py:220-226 | the loop's zone times list each visited zone once, in first-visit order, with the sum of all its dwell times |
| RunAnalysis.ZoneTimesSpec | backend/app.py:220-226 | each zone once; each zone's time is the sum over all its visits of the next entry's timestamp minus the visit's own (0 for a final entry) |
| RunAnalysis.ZoneTimesKeys | backend/app.py:220-226 | the zones appear in the order of their first visit in the zone sequence |
| RunAnalysis.DistinctSpec | backend/app.py:226 | the first-visit order keeps every zone and repeats none |
| RunAnalysis.ZoneTimesCoverSequence | backend/app.py:214-226 | a zone has a time exactly when it is in the zone sequence |
| RunAnalysis.ZoneTimesNonNegative | backend/app.py:220-226 | with non-decreasing timestamps every zone time is at least 0 |
| RunAnalysis.FinalZoneChangeAddsNothing | backend/app.py:225 | a ZoneChange as the last entry adds nothing to any zone's time |
| RunAnalysis.FindStuck | backend/app.py:228-231 | the loop reports the stuck zones, in zone order |
| RunAnalysis.StuckUpToMembers | backend/app.py:229-231 | the reported issues are exactly the entries over 10000 ms, as Stuck(zone, time) |
| RunAnalysis.StuckSpec | backend/app.py:229-231 | a zone is reported with time t exactly when it has time t and t > 10000 |
| RunAnalysis.CountOscillations | backend/app.py:233-236 | the count equals the number of positions i >= 2 where the sequence returns to zone i-2 from a different zone i-1 |
| RunAnalysis.OscillationIssueSpec | backend/app.py:237-238 | an oscillation issue is reported, with the count, exactly when the count exceeds 2 |
| RunAnalysis.BackAndForthIsReported | backend/app.py:233-238 | A,B,A,B,A oscillates 3 times and is reported |
| RunAnalysis.ShortOscillationIsNot | backend/app.py:233-238 | A,B,A,B oscillates twice and is not reported; A,A,A never oscillates |
| RunAnalysis.StoredEntriesAnalyzable | backend/app.py:203 | a run stored by ingest never lacks a zone or timestamp, so its analysis raises no KeyError |
| RunAnalysis.Analyze | backend/app.py:195-238 | 400 for a missing or empty body; 404 for an unknown run id; 400 for an empty log; 500 "'zone_name'" / "'timestamp_ms'" for a ZoneChange without its zone or a timestamp; otherwise the statistics, saved under the run id when one was given |
| Geometry.AheadOnPath | frontend/src/components/BackgroundRobot.jsx:34 | the look-ahead is at most the path length, is at least the distance exactly when the distance is on the path, and is distance+step unless that passes the end |
| ScrollRobot.ZoneIndex | frontend/src/components/ScrollRobot.jsx:40-50 | each progress gets one of the 11 zones, and lies in that zone's half-open interval of thresholds |
| ScrollRobot.ThresholdsIncrease | frontend/src/components/ScrollRobot.jsx:40-49 | the thresholds strictly increase |
| ScrollRobot.ZoneIndexUnique | frontend/src/components/ScrollRobot.jsx:40-50 | the interval containing a progress is unique: it is the ladder's zone |
| ScrollRobot.LabelsDistinct | frontend/src/components/ScrollRobot.jsx:40-50 | no two zones share a caption |
| ScrollRobot.ZoneLabelIff | frontend/src/components/ScrollRobot.jsx:40-50 | the caption is zone k's exactly when the progress lies in zone k's interval |
| ScrollRobot.ZoneIndexMonotone | frontend/src/components/ScrollRobot.jsx:40-50 | the zone never moves back as progress grows |
| ScrollRobot.ZoneBoundaries | frontend/src/components/ScrollRobot.jsx:40-50 | 0.05 gives PICKUP BOX and 0.92 the final zone (strict <); anything below 0.05 is START, anything from 0.92 on is the final zone |
| ScrollRobot.DistanceOnTrack | frontend/src/components/ScrollRobot.jsx:32 | distance is 0 at progress 0, the path length at 1, and on the path in between |
| ScrollRobot.HandleUnmeasured | frontend/src/components/ScrollRobot.jsx:31 | with path length 0 the handler changes nothing |
| ScrollRobot.HandleMeasured | frontend/src/components/ScrollRobot.jsx:31-50 | with a measured path the new view depends only on the progress: the zone caption and the pose at its distance, heading to min(distance+1, length) |
| ScrollRobot.HandleIdempotent | frontend/src/components/ScrollRobot.jsx:30-51 | the same progress delivered twice gives the state it gives once |
| ScrollRobot.RobotAnimation.constructor | frontend/src/components/ScrollRobot.jsx:8-10 | the initial state: length 0, position (0,0,0), zone START |
| ScrollRobot.RobotAnimation.MeasurePath | frontend/src/components/ScrollRobot.jsx:23-27 | records the path length and leaves the view alone |
| ScrollRobot.RobotAnimation.OnChange | frontend/src/components/ScrollRobot.jsx:30-51 | the new view is `Handle` of the old one; the path length is unchanged |
| ScrollRobot.EarlyEventsIgnored | frontend/src/components/ScrollRobot.jsx:9-31 | an event before measuring leaves (0,0,0) and START; after measuring, the caption follows the progress |
| BackgroundRobot.AdjustedProgress | frontend/src/components/BackgroundRobot.jsx:27-28 | never negative; 0 exactly up to 0.15; from 0.15 on it inverts to the latest progress (0.15 + a·0.85 = latest); 1 at 1 and above 1 beyond 1 (no upper clamp) |
| BackgroundRobot.AdjustedProgressMonotone | frontend/src/components/BackgroundRobot.jsx:28 | non-decreasing in the progress |
| BackgroundRobot.HandleSpec | frontend/src/components/BackgroundRobot.jsx:30-38 | the progress is recorded on every event; the robot moves only with a measured path, and then regardless of where it was |
| BackgroundRobot.RobotLookAheadOnTrack | frontend/src/components/BackgroundRobot.jsx:34 | the look-ahead is at most the path length and not behind the robot while it is on the path |
| BackgroundRobot.BallDistance | frontend/src/components/BackgroundRobot.jsx:55 | the ball distance is at most the path length and not behind the robot while it is on the path |
| BackgroundRobot.BallSpec | frontend/src/components/BackgroundRobot.jsx:52-67 | from 0.22 on the ball is exactly at (1200, 280); before, on a measured path, it is on the path at its rolling distance |
| BackgroundRobot.SettleReversible | frontend/src/components/BackgroundRobot.jsx:52-58 | scrolling anywhere and back below the settle point puts the ball back on the path exactly where it would have been |
| BackgroundRobot.BallRotation | frontend/src/components/BackgroundRobot.jsx:70 | spin 0 at progress 0 and 720 at 1 |
| BackgroundRobot.BallRotationTurns | frontend/src/components/BackgroundRobot.jsx:70 | each half of the progress adds one full turn |
| BackgroundRobot.Captions | frontend/src/components/BackgroundRobot.jsx:141-239 | BALL shows exactly while the ball rolls; SCORE! only when settled; never both; at exactly 0.22 the ball is settled and neither shows |
| BackgroundRobot.BackgroundAnimation.constructor | frontend/src/components/BackgroundRobot.jsx:6-8 | the initial state: length 0, progress 0, the robot at (1850, 80) heading 0, the path's first vertex |
| BackgroundRobot.BackgroundAnimation.MeasurePath | frontend/src/components/BackgroundRobot.jsx:18-22 | records the path length and leaves the state alone |
| BackgroundRobot.BackgroundAnimation.OnChange | frontend/src/components/BackgroundRobot.jsx:25-39 | the new state is `Handle` of the old one; the path length is unchanged |
| BackgroundRobot.UnmeasuredTrack | frontend/src/components/BackgroundRobot.jsx:30-66 | before measuring, events leave the robot at (1850, 80); the ball is 40 along its heading before the settle point and in the ring after it |
| CrtOverlay.LowerChar | frontend/src/components/CRTOverlay.jsx:21 | a lower-cased character is never a capital, and is a letter exactly when the input was one |
| CrtOverlay.MatchesOnlyExactly | frontend/src/components/CRTOverlay.jsx:3-21 | the lower-case alternative never decides: a key matches exactly when it equals the expected key |
| CrtOverlay.Advance | frontend/src/components/CRTOverlay.jsx:17-33 | the index stays below 5; a match below the last key advances without triggering; a match of the last key triggers and restarts at 0; any mismatch restarts at 0 |
| CrtOverlay.Feed | frontend/src/components/CRTOverlay.jsx:17-33 | after any run of keys the index stays below 5 |
| CrtOverlay.KonamiTriggers | frontend/src/components/CRTOverlay.jsx:3-26 | the five keys typed from index 0 trigger and leave the index at 0 |
| CrtOverlay.ExtraUpDoesNotTrigger | frontend/src/components/CRTOverlay.jsx:30-31 | Up,Up,Up,Up,Left,Down,Right does not trigger, since a mismatch restarts at 0 |
| CrtOverlay.Overlay.constructor | frontend/src/components/CRTOverlay.jsx:10-14 | the initial state: CRT on, index 0, no self-destruct, countdown 5, no joke |
| CrtOverlay.Overlay.HandleKeyDown | frontend/src/components/CRTOverlay.jsx:17-33 | the index and self-destruct follow `Advance`; nothing else changes; the invariant is kept |
| CrtOverlay.Overlay.Tick | frontend/src/components/CRTOverlay.jsx:41-46 | a running countdown drops by exactly 1, never below 0, and the joke shows on reaching 0; otherwise nothing changes |
| CrtOverlay.Overlay.JokeTimeout | frontend/src/components/CRTOverlay.jsx:47-51 | after the joke: no self-destruct, no joke, countdown 5 |
| CrtOverlay.Overlay.ToggleCrt | frontend/src/components/CRTOverlay.jsx:60 | the CRT flag is negated and nothing else changes |
| CrtOverlay.SelfDestructEpisode | frontend/src/components/CRTOverlay.jsx:17-60 | typing the sequence triggers; the countdown shows 5,4,3,2,1,0; then the joke, then a full reset; toggling twice restores the CRT flag |
| Dashboard.BarWidth | frontend/src/pages/Dashboard.jsx:172 | the width is in [0, 100]: 0 at or below 0, 100 at or above 255, value/255·100 in between |
| Dashboard.BarWidthMonotone | frontend/src/pages/Dashboard.jsx:172 | non-decreasing in the value |
| Dashboard.ChannelValue | frontend/src/pages/Dashboard.jsx:82-84 | a missing channel reads 0; a present one reads its value |
| Dashboard.MissingChannelIsEmptyBar | frontend/src/pages/Dashboard.jsx:82-84 | a missing channel shows an empty bar |
| Text.Includes | frontend/src/pages/Dashboard.jsx:193-195 | `includes` holds exactly when the pattern occurs at some position |
| Dashboard.ZoneColorSpec | frontend/src/pages/Dashboard.jsx:191-197 | red exactly when "Red" occurs; green when "Green" occurs but not "Red"; blue when only "Blue" occurs; white for a missing or empty zone or none of the three |
| Dashboard.AbsentFirstChar | frontend/src/pages/Dashboard.jsx:193-195 | a pattern whose first character is absent does not occur |
| Dashboard.UncolouredZoneIsWhite | frontend/src/pages/Dashboard.jsx:193-196 | a zone without a capital R, G or B shows white |
| Dashboard.LowerCaseZoneIsWhite | frontend/src/pages/Dashboard.jsx:193-196 | matching is case-sensitive: "red zone" is white |
| Dashboard.MixedZoneIsRed | frontend/src/pages/Dashboard.jsx:193-195 | "Green Red" is red: Red is checked first |
| Dashboard.BackendColouredZones | frontend/src/pages/Dashboard.jsx:191-197 | the backend's "Red Zone", "Green Zone" and "Blue Zone" show in their own colours |
| Dashboard.BackendNeutralZones | frontend/src/pages/Dashboard.jsx:191-197 | the backend's "Start", "Center" and "Unknown" show white |
| Dashboard.ZoneText | frontend/src/pages/Dashboard.jsx:86 | the zone display is never blank; a non-empty zone name is shown as it is; any text but "NO SIGNAL" is shown only when it is the zone's name |
| Dashboard.NoSignalIsWhite | frontend/src/pages/Dashboard.jsx:85-86 | a display without a zone reads "NO SIGNAL" and is white |
| ModelViewer.LastIndexBelow | frontend/src/components/ModelViewer.jsx:19 | the result holds the character and nothing after it below the bound does, or it is -1 and nothing does |
| ModelViewer.LastIndexOf | frontend/src/components/ModelViewer.jsx:19-33 | `lastIndexOf`: the last position holding the character, or -1 |
| ModelViewer.LastIndexOfIs | frontend/src/components/ModelViewer.jsx:19-33 | a position holding the character with none after it is the last one |
| ModelViewer.SplitRoundTrip | frontend/src/components/ModelViewer.jsx:19-22 | base path followed by file name is the URL |
| ModelViewer.SplitShape | frontend/src/components/ModelViewer.jsx:19-22 | the file name holds no '/'; the base path is empty exactly when the URL has no '/', and otherwise ends with '/' |
| Text.IndexFrom | frontend/src/components/ModelViewer.jsx:163 | the first occurrence at or after a position, or -1 when there is none |
| Text.IndexOfIs | frontend/src/components/ModelViewer.jsx:163 | an occurrence with none before it is the first |
| ModelViewer.MtlUrlSpec | frontend/src/components/ModelViewer.jsx:163 | null for a null or empty model URL; unchanged without ".obj"; otherwise only the first ".obj" becomes ".mtl" |
| ModelViewer.PlanLoadsSpec | frontend/src/components/ModelViewer.jsx:19-74 | the material request is the MTL URL; the fallback is the whole OBJ URL; the object file is the OBJ URL's last segment, with no '/' |
| ModelViewer.LastIndexOfAppend | frontend/src/components/ModelViewer.jsx:19 | a suffix without the character does not move its last occurrence |
| ModelViewer.SpliceShift | frontend/src/components/ModelViewer.jsx:163 | replacing inside the second half of a concatenation replaces in that half alone |
| ModelViewer.SpliceSplits | frontend/src/components/ModelViewer.jsx:19-22 | replacing after the last '/' keeps the base path in front of the replaced file name |
| ModelViewer.SplicedFileNameHasNoSlash | frontend/src/components/ModelViewer.jsx:163 | the replaced file name still has no '/' |
| ModelViewer.SpliceAfterLastSlash | frontend/src/components/ModelViewer.jsx:19-22 | replacing after the last '/' keeps the base path and replaces the same characters of the file name |
| ModelViewer.SplitOfAppend | frontend/src/components/ModelViewer.jsx:19-22 | a base path ending at its last '/' followed by a name without '/' splits back into exactly those two |
| ModelViewer.FirstOccurrenceInFileName | frontend/src/components/ModelViewer.jsx:163 | when the URL's first ".obj" lies after the last '/', it is the file name's first ".obj" |
| ModelViewer.SameDirectoryWhenExtensionInFileName | frontend/src/components/ModelViewer.jsx:19-35 | then the MTL is in the OBJ's directory, its file name is the OBJ file name with ".obj" replaced, and the OBJ loader fetches exactly the model URL |
| ModelViewer.DashboardModelPositions | frontend/src/pages/Dashboard.jsx:146 | in "/models/44bot.obj" the last '/' is at 7 and the first ".obj" at 13 |
| ModelViewer.DashboardModelMtl | frontend/src/components/ModelViewer.jsx:163 | "/models/44bot.obj" gives "/models/44bot.mtl" |
| ModelViewer.DashboardModelPlan | frontend/src/components/ModelViewer.jsx:19-35 | both dashboard URLs split into "/models/" and their file names |
| ModelViewer.DashboardModel | frontend/src/components/ModelViewer.jsx:163-206 | the dashboard's model loads "/models/44bot.mtl" and "44bot.obj" from "/models/" |
| ModelViewer.FirstOccurrenceInDirectory | frontend/src/components/ModelViewer.jsx:163 | for "a.obj/b.obj" only the directory's ".obj" is replaced, and the OBJ loader then fetches a different URL |

## Left out

- HTTP and storage: Flask routing, MongoDB and the `run_id` returned by the insert are left out. The runs collection is a map parameter of `Analyze`, keyed by id. The write-back of an analysis is only named, by `savedTo`.
- Invalid run ids: a `run_id` that is not a valid ObjectId raises in the source, which replies 500. In the model such an id is simply absent from the map, so the reply is 404.
- `datetime.utcnow()` and `isoformat()`: the creation time is not stored, and the ISO conversion is a function parameter of `Serialize`.
- The OpenRouter call: the prompt text is left out. So are the summary, score and recommendations of the mock and AI replies, and the 502 reply. The statistics these replies carry are modelled.
- Message text: issues are kept as data (`Stuck(zone, ms)`, `Oscillation(n)`), not as their formatted `.1f` strings.
- Ingest bodies that are not objects: the model's ingest body is always an object, or absent.
  - In the source any falsy body, such as an empty array, an empty string, `0` or `false`, gives 400 "No data provided" before the membership test.
  - A non-empty JSON array or string body goes through the `"logs" in data` membership test. Without a "logs" element or substring the reply is 400 "Missing 'logs' field"; with one, `data.get` raises and the reply is 500.
  - Any other number, or `true`, raises `TypeError` at `in`, and the reply is 500.
- Null `logs`: the model reads `{"logs": null}` as a body without `logs`, and replies 400 "Missing 'logs' field". In the source that body passes the `"logs" in data` test, and iterating `None` raises `TypeError`, so the reply is 500.
- `RunLog.Ingest`: `robot_id` is text or missing, and `run_number` an integer or missing. A missing one is stored as "unknown" or 0, as `data.get` does. In the source a null or other-typed value is stored as it is; the model stores the default for a null, and cannot represent other types.
- `logs` values that are not lists: the model's `logs` is always a list of objects. In the source an empty string or empty object is iterated as empty, giving 201 with `logs_count` 0. A non-empty string or object iterates over characters or keys, whose `.get` raises, giving 500; so do entries that are not objects and a number, which cannot be iterated.
- Codes of other types: the model's `event` and `data` are integers or missing. In the source a null, string or float code is stored as it is and named "Unknown" (a float equal to a table key, such as 2.0, takes that key's name), with reply 201. Only an unhashable code, a list or an object, raises and gives 500.
- Timestamps of other types: the model's `timestamp` is an integer or missing. In the source a null or text timestamp is stored as it is at ingest. It can fail only later, in `/analyze`, when a ZoneChange entry's dwell time subtracts it (backend/app.py lines 224-226). There it raises `TypeError`, and the reply is 500.
- `/analyze` input types: the model accepts only an object body whose `run_id` is text and whose entries have text names and an integer timestamp, and it reads a JSON null as a missing key. The source behaves differently for other inputs:
  - A non-object body such as `["run_id"]` raises `TypeError` at `data["run_id"]`, giving 500.
  - A null `run_id` makes `ObjectId(None)` a fresh id, so the source replies 404. The model reads the id as missing. When logs are posted it analyses them; for `{"run_id": null}` alone the body counts as empty (`NoAnalyzeData`), and the reply is 400 "No data provided".
  - A null `event_name` is counted under the key `None`, not "Unknown". `jsonify` sorts the keys of the reply, so a summary that mixes `None` with text keys raises `TypeError` there, and the reply is 500. Only a summary whose single key is `None` comes back with 200.
  - A ZoneChange entry with a null `zone_name` makes `' -> '.join(zone_sequence)` raise `TypeError` while the prompt is built, which happens on every request. The reply is 500 in both the source and the model, but the message differs: the source names the joined sequence item, the model says "'zone_name'".
  - A null or text timestamp that is subtracted raises `TypeError` rather than `KeyError`, so the 500 reply carries a different message.
- Check order in `Analyze`: the `KeyError` checks happen before the loops in the model. They raise midway in the source, but the first missing key's message is the same either way.
- `metadata` is kept as a text map, and `ingest` only copies it.
- `RunLog.Serialize` requires a document with an `_id` whose timestamps are datetimes or falsy. In the source a document without `_id` raises `KeyError`, and a truthy timestamp that is not a datetime raises `AttributeError` at `isoformat`. Any `_id` is converted by `str`, which never raises; the text of values other than ObjectIds and strings is the parameter `repr`.
- `CrtOverlay.ToLower`: lower-cases ASCII letters only, not the rest of Unicode. This changes nothing, because every sequence key starts with a capital, which no lower-cased key does (`MatchesOnlyExactly`).
- Timers and listeners: `setTimeout` and the key listener's attach and detach are left out. Timers firing are the explicit calls `Tick` and `JokeTimeout`. Each does nothing when its timer would not be pending.
- The `useSpring` smoothing and `getTotalLength`/`getPointAtLength`: the smoothed progress is the handler's argument. The path length is the argument of `MeasurePath`. Points on the path come from an uninterpreted function.
- `atan2`, `cos`, `sin`: uninterpreted degree-valued functions, so headings are not computed. A present `pathRef` is assumed, so the guard `pathRef.current && pathLength > 0` is `pathLength > 0`.
- All JSX/SVG markup, CSS, the three.js loaders, model scaling and rotation, the dashboard's polling, and the `/runs`, `/telemetry` and `/health` routes are left out.
- `backend/seed_fake_data.py`, `bridge/bridge.py`, `App.jsx` and `Home.jsx` are not part of this model.
- `Dashboard.ChannelValue`: NaN, which JavaScript's `|| 0` also maps to 0, is not modelled, because reals have no NaN.
