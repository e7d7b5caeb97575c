# PeakReady readiness core, modelled in Dafny

PeakReady is a mobile check-in app. Each day the user logs hours of sleep, workout
intensity (1–10) and muscle soreness (1–10). The app turns them into a readiness
score from 0 to 100 and shows the score in one of three zones: GREEN, YELLOW or RED.
This project models the app's logic and proves properties of it:

- `Readiness` (utils/readiness.ts): the score formula. Sleep credit is
  `min(sleep/8*100, 100)`. Intensity costs 5 points per unit and soreness 4. The result
  is rounded like JavaScript's `Math.round` and clamped to [0, 100].
- `DesignSystem` (lib/designSystem.ts): the 70/40 zone classifier, the per-zone label,
  emoji and CSS class lookups, and the home screen's insight sentence.
- `Storage` (utils/storage.ts): the on-device log list. All logs are stored as one value
  under the key `peakready.logs.v1`. `saveLog` is an upsert by id: the new log goes first
  and older entries with the same id are dropped. `deleteLog` filters by id. `getLogs`
  falls back to the empty list when the value is missing or does not parse. `todayId`
  formats a date as `YYYY-MM-DD`.
- `LogScreen` (app/log.tsx): what one press of "save" does. Guards run in a fixed order:
  finiteness, sleep range, intensity range, soreness range. The first failing guard shows
  its alert. Only input that passes every guard reaches `upsertDailyLog`. A failed save
  shows an alert; a successful one navigates back.
- `RootLayout` (app/_layout.tsx): the auth route guard and the loading spinner.
- `Wrappers`: the `Option` and `Result` datatypes used by the others.

Metrics are exact reals standing for finite JavaScript numbers. `Round(x)` is
`(x + 0.5).Floor`, which matches `Math.round` on every finite number.

Two facts from the source shape the data model. First, a local `DailyLog` carries both
an `id` and a `date`, and `saveLog` replaces entries by `id` (utils/storage.ts:24), so the
upsert key is `id`. Second, `zoneFromScore` takes any number (lib/designSystem.ts:25), so
the zone classifier is modelled on reals, not only on the integer scores
`calculateReadiness` produces.

## Model

| member | source | states |
|---|---|---|
| `Readiness.Round` | utils/readiness.ts:23 | `Math.round` gives the integer n with n - 1/2 <= x < n + 1/2, so halves round up |
| `Readiness.SleepScore` | utils/readiness.ts:13 | the sleep credit never exceeds 100, is 100 from 8 hours on, and is 12.5 points per hour up to 8 hours |
| `Readiness.RawScore` | utils/readiness.ts:13-21 | the raw score is at most 100 minus 5 per intensity point and 4 per soreness point; with 8 or more hours it is exactly that, with fewer the sleep term is 12.5 points per hour |
| `Readiness.Clamp` | utils/readiness.ts:23 | `Math.max(lo, Math.min(hi, n))` is n inside [lo, hi], lo below it and hi above it; it never goes below lo, and lo wins when the range is empty |
| `Readiness.CalculateReadiness` | utils/readiness.ts:7-24 | the score is an integer in [0, 100] for every finite input |
| `Readiness.RoundMonotone` | utils/readiness.ts:23 | rounding preserves order |
| `Readiness.ScoreIsNearestInRange` | utils/readiness.ts:21-23 | the score is 0 exactly when the raw score is below 0.5, and 100 exactly when it is at least 99.5; in between it is the integer nearest the raw score |
| `Readiness.SleepCreditCapped` | utils/readiness.ts:13 | with 8 or more hours of sleep, the score equals the score at 8 hours |
| `Readiness.MonotoneInSleep` | utils/readiness.ts:13-23 | more sleep never lowers the score |
| `Readiness.AntitoneInIntensity` | utils/readiness.ts:16-23 | higher intensity never raises the score |
| `Readiness.AntitoneInSoreness` | utils/readiness.ts:19-23 | higher soreness never raises the score |
| `Readiness.TestVectors` | __tests__/readiness.test.ts:4-42 | the unit-test inputs score exactly 77, 0, 0 and 100 (so >= 70, < 40, >= 0 and <= 100); (8, 0, 0) scores 100 |
| `DesignSystem.ZoneFromScore` | lib/designSystem.ts:25-29 | GREEN iff score >= 70, YELLOW iff 40 <= score < 70, RED iff score < 40 |
| `DesignSystem.ZoneBoundaries` | lib/designSystem.ts:26-28 | 70 is GREEN, 69 and 40 are YELLOW, 39 is RED |
| `DesignSystem.ZoneMonotone` | lib/designSystem.ts:25-29 | a higher score never gets a lower zone in the order RED < YELLOW < GREEN |
| `DesignSystem.ZoneLabel` | lib/designSystem.ts:31-35 | "Peak Ready", "Manage Load" and "Recovery Focus", each the label of exactly one zone (GREEN, YELLOW, RED) |
| `DesignSystem.ZoneEmoji` | lib/designSystem.ts:37-41 | fire, high voltage and ice cube, each the emoji of exactly one zone (GREEN, YELLOW, RED) |
| `DesignSystem.ZonePillClass` | lib/designSystem.ts:43-47 | each pill class starts with a border in the zone's neon colour and ends, after a space, with the text class in that same colour |
| `DesignSystem.TextClassEndsPillClass` | lib/designSystem.ts:43-53 | each zone's text class is the last space-separated class of its pill class (same neon colour) |
| `DesignSystem.ZoneTextClass` | lib/designSystem.ts:49-53 | each zone's text class is `text-` followed by the zone's neon colour token (lime, amber, rose) |
| `DesignSystem.LabelsAndEmojiDistinguishZones` | lib/designSystem.ts:31-41 | labels and emoji are non-empty and injective: equal iff the zones are equal |
| `DesignSystem.QuickInsight` | lib/designSystem.ts:55-66 | no score gives the no-metrics message; a score gives the insight of the zone `zoneFromScore` picks for it |
| `DesignSystem.InsightDeterminesZone` | lib/designSystem.ts:55-66 | a scored insight never equals the no-metrics message; two scores get the same insight iff they are in the same zone |
| `Storage.WithoutId` | utils/storage.ts:30 | no entry of the filtered list has the id |
| `Storage.WithoutIdContents` | utils/storage.ts:30 | the filter keeps each entry with another id exactly as often as it occurred, and adds nothing |
| `Storage.WithoutIdAppend` | utils/storage.ts:30 | filtering a concatenation filters each part in place, so relative order is kept |
| `Storage.WithoutAbsentId` | utils/storage.ts:30 | deleting an id no entry has leaves the list unchanged |
| `Storage.WithoutIdIdempotent` | utils/storage.ts:30 | deleting an id twice is the same as deleting it once |
| `Storage.Upsert` | utils/storage.ts:24 | after a save the log is first, no other entry has its id, and every entry with another id keeps its multiplicity |
| `Storage.UpsertKeepsOthersInOrder` | utils/storage.ts:24 | behind the saved log come exactly the old entries with other ids, in their old order |
| `Storage.UpsertIdempotent` | utils/storage.ts:24 | saving the same log twice leaves the same list as saving it once |
| `Storage.DeleteUndoesUpsert` | utils/storage.ts:22-32 | deleting the id just saved gives the old list without that id |
| `Storage.ReadLogs` | utils/storage.ts:12-20 | a missing or unparsable value reads as the empty list; a parsed value reads as its list |
| `Storage.LogStore.GetLogs` | utils/storage.ts:12-20 | `getLogs` returns the stored list, or the empty list when nothing parses |
| `Storage.LogStore.SaveLog` | utils/storage.ts:22-26 | `saveLog` writes back the upsert of what `getLogs` read |
| `Storage.LogStore.DeleteLog` | utils/storage.ts:28-32 | `deleteLog` writes back the filter of what `getLogs` read |
| `Storage.SaveThenRead` | utils/storage.ts:22-26 | after `saveLog`, a read returns the log first and exactly once, followed by the old entries with other ids |
| `Storage.DecimalString` | utils/storage.ts:36-38 | `String(n)` is a non-empty digit string without a leading zero |
| `Storage.DecimalRoundTrip` | utils/storage.ts:36-38 | reading the digits of `String(n)` back gives n |
| `Storage.IntString` | utils/storage.ts:36 | `String(year)` puts a minus sign before the digits of a negative year |
| `Storage.PadStartZeros` | utils/storage.ts:37-38 | `padStart(w, "0")` keeps the string as its suffix, pads to length max(|s|, w), and pads only with zeros |
| `Storage.TwoDigitField` | utils/storage.ts:37-38 | a month or day number is written as two digits that read back as the number |
| `Storage.TodayId` | utils/storage.ts:34-40 | the id is the unpadded year, `-`, the two-digit month `getMonth() + 1`, `-`, and the two-digit day |
| `Storage.TodayIdFourDigitYear` | utils/storage.ts:34-40 | for a four-digit year the id is exactly `YYYY-MM-DD` (10 characters, dashes at 4 and 7), and each field reads back |
| `LogScreen.Validate` | app/log.tsx:27-47 | input is accepted iff every field is finite, sleep is in [0, 24] and intensity and soreness are in [1, 10]; accepted input keeps exactly the parsed values |
| `LogScreen.ValidateReportsFirstFailingGuard` | app/log.tsx:27-47 | the reported error is the first failing guard in the order finite, sleep, intensity, soreness |
| `LogScreen.NonFiniteIsInvalidInput` | app/log.tsx:27-34 | any non-finite field gives the "Invalid input" error |
| `LogScreen.RangeEndsAccepted` | app/log.tsx:36-47 | 0 and 24 hours pass, and so do 1 and 10 on both scales; values just outside each range fail with that range's error |
| `LogScreen.ErrorAlert` | app/log.tsx:32-45 | each guard's alert is titled "Invalid " followed by what it checks (input, sleep, intensity, soreness) and has a non-empty message |
| `LogScreen.ErrorAlertsDistinguishGuards` | app/log.tsx:32-53 | distinct guards show distinct alert titles, and no guard's title is the save-failure title |
| `LogScreen.SaveFailedAlert` | app/log.tsx:51-53 | a failed save shows "Save failed" with the thrown error's message, or "Unable to save log." when something other than an `Error` is thrown |
| `LogScreen.OnSave` | app/log.tsx:20-58 | `upsertDailyLog` is called iff every guard passes, with the parsed values; the press navigates back iff the save succeeds; otherwise exactly one alert shows, with the guard's text or the save error's text |
| `LogScreen.AcceptedScoreRange` | app/log.tsx:40-47 | input that passes validation scores between 0 and 91, and both ends occur |
| `LogScreen.DefaultFieldsSave` | app/log.tsx:16-18 | the screen's initial values 8, 5 and 3 are saved as they are, then navigate back, and score 63 |
| `RootLayout.RedirectEffect` | app/_layout.tsx:34-45 | at most one `router.replace` per run; none while loading or when session and route group agree; sign-in when there is no session outside "(auth)"; home with a session inside it |
| `RootLayout.Render` | app/_layout.tsx:47-53 | the spinner renders exactly while the session is loading |
| `RootLayout.LoadingGate` | app/_layout.tsx:34-53 | while loading, the spinner shows and no route is replaced |
| `RootLayout.OnlyFirstSegmentMatters` | app/_layout.tsx:37 | only `segments[0]` is examined; an empty segment list is outside the auth group |
| `RootLayout.RedirectSettles` | app/_layout.tsx:37-44 | once the route is in the target's group and the session is unchanged, the effect redirects no further |
| `RootLayout.RouteSegments` | app/_layout.tsx:37-43 | a route's segments are its non-empty parts between slashes: no segment is empty or holds a '/', and together they spell the route without its slashes |
| `RootLayout.TargetsLandInTheirGroups` | app/_layout.tsx:37-43 | split into segments, the sign-in route `/(auth)/sign-in` starts with the "(auth)" group, and home `/` has no segment, so it lies outside the group |

## Left out

- IEEE-754 arithmetic: the model uses exact reals. It does not capture rounding error in `sleep / 8 * 100`, or NaN and infinite metrics, for which `Math.max(0, NaN)` is NaN and the [0, 100] bound fails. The zone classifier is likewise modelled on finite reals only: in the source `zoneFromScore` and `quickInsight` send NaN to RED and the red insight, and +Infinity to GREEN.
- `Number(text)` parsing in app/log.tsx:22-24 (for example, `""` becomes 0): each parsed field is an `Option<real>`, with `None` for a non-finite result.
- The check-in screen's text fields, choice chips and their setters (app/log.tsx:14-18, 60-207): the model starts from the parsed fields and covers only the decision in `onSave`.
- `upsertDailyLog`, `fetchLogs` and `deleteLogByDate` in data/logs.ts are calls to a remote service. `OnSave` takes how the call settles as a parameter, and the date argument (`todayId()` by default) is not modelled. data/logs.ts:18-24 repeats `todayId` from utils/storage.ts.
- AsyncStorage I/O and JSON: the stored value is modelled as missing, unparsable, or a parsed list, and a write stores the list itself. The model assumes `JSON.parse(JSON.stringify(logs))` gives `logs` back. It does not model parsed text that is valid JSON but not an array.
- Overlapping saves and deletes: the model runs one `saveLog` or `deleteLog` at a time, as one step. In the source each spans two awaits (read, then write), so two overlapping calls can lose an update.
- `todayId` reading the wall clock: the model takes the values of `getFullYear()`, `getMonth()` and `getDate()` as parameters.
- RootLayout.RouteSegments: the router's own mapping from a path to `segments` is not part of this model; it is modelled as splitting the path on '/' and dropping empty parts, and `TargetsLandInTheirGroups` rests on that reading.
- The session subscription and its mount and unmount handling (app/_layout.tsx:13-32): this is asynchronous callback plumbing. The redirect rule takes `isLoadingSession` and the presence of a session as inputs.
- Rendering and styling: `designTokens`, the screens (app/index.tsx, app/history.tsx), components/MetricChip.tsx, components/GlassCard.tsx, tailwind.config.js, the zone-to-hex colour ternaries, and the ring geometry of components/ReadinessRing.tsx.
