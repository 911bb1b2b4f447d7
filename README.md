# AQUA-PULSE: the simulation tick, the repair wizard and the usage gauge

AQUA-PULSE is a mock smart-home water dashboard. Its only logic is:

- the once-a-second simulation in `App.tsx`. A running appliance raises today's usage until it randomly stops and is logged. The "Ghost Hunter" randomly suspects a silent leak, whose loss grows each tick until the leak randomly clears. A shower start shows a notification for five seconds;
- `formatDuration`, which shows a leak's age as `"<m>m <s>s"`;
- the augmented-reality repair overlay (`components/ARRepairMode.tsx`), a four-step script driven by one `step` counter;
- the usage gauge (`components/WaterPulse.tsx`), which clamps a percentage into [0, 100] and prints it rounded.

How the model is built:

- The values `Math.random()` returns become an explicit `Draws` record of six reals in [0, 1), one per random test of a tick.
- `setInterval` becomes one call of `NextState` (pure) or `Dashboard.Tick` (in place) per tick.
- The two `setTimeout`s become events: `Dashboard.NotificationTimerFires` and `ARRepairMode.ScanTimerFires`.
- Gallons, rates, thresholds and percentages are exact `real`s.
- The leak's `setGhostLeak` calls in one tick are modelled as a queue that React applies in order. On a resolving tick the queue is [grow, clear], so the leak ends up gone and that tick's growth is discarded.

Files:

- `options.dfy`: the option type used for the nullable state slots.
- `types.dfy`: the records of `types.ts` and the transient flow and leak records.
- `simulation.dfy`: the tick, its properties over one tick and over runs, and the `Dashboard` class.
- `duration.dfy`: `formatDuration` and its parser partner.
- `repair_wizard.dfy`: the overlay as a step function, its properties, and the `ARRepairMode` class.
- `water_pulse.dfy`: the gauge clamp and label.

At most one flow and one leak exist at a time because the state holds each as an `Option`.

## Model

| member | source | states |
|---|---|---|
| Simulation.PickIndex | App.tsx:58 | the appliance index `floor(r*4)` is below 4 for every draw in [0,1), and each index is chosen on exactly one quarter of [0,1) |
| Simulation.EventVolume | App.tsx:79 | a logged volume is a whole number from 1 to 5, each chosen on one fifth of [0,1) |
| Simulation.Threshold | App.tsx:92 | for sensitivity 0..100 the leak threshold lies in [0.905, 0.995] |
| Simulation.ThresholdFallsWithSensitivity | App.tsx:89-92 | the threshold never rises as sensitivity rises; it is 0.995 at 0 and 0.905 at 100 |
| Simulation.FlowStartsOnlyWhenIdle | App.tsx:51-59 | with no flow running, a flow starts iff the start draw exceeds 0.85; it is the table entry the pick draw selects; usage and the log are untouched |
| Simulation.ShowerNotifies | App.tsx:61-65 | starting "Shower" shows the shower message and schedules one clearing timer; every other tick leaves the notification and the timers unchanged |
| Simulation.RunningFlowAccumulates | App.tsx:67-84 | a running flow adds exactly rate/60 to `used`, also on the tick that stops it; goal and bills are unchanged; the flow stops iff the stop draw exceeds 0.8, and then no other flow starts that tick |
| Simulation.StoppingLogsOneEvent | App.tsx:72-84 | stopping prepends exactly one event (the flow's appliance, icon "tap", whole volume 1..5) before the unchanged old log; otherwise the log is unchanged |
| Simulation.TickLogsAtMostOne | App.tsx:73-84 | under the invariant, one tick either leaves the log unchanged or prepends exactly one event that names a table appliance, has icon "tap" and a whole volume 1..5 |
| Simulation.LeakStartsAboveThreshold | App.tsx:88-96 | with no leak, one starts iff the draw exceeds the threshold, at 0.05 gallons and duration 0 |
| Simulation.ClearLastWins | App.tsx:99-106 | a queue of leak setters that ends with `null` leaves no leak, whatever was queued before it |
| Simulation.LeakGrowsOrClears | App.tsx:97-108 | a suspected leak either survives with +0.002 gallons and +1 duration, or, when the resolve draw exceeds 0.9, becomes none with that tick's growth discarded |
| Simulation.BranchesIndependent | App.tsx:50-108 | the leak state, sensitivity and leak draws never affect usage, log, flow or notification; the flow side never affects the leak |
| Simulation.InitialStateInv | App.tsx:24-45 | the mounted state satisfies the invariant |
| Simulation.NextStatePreservesInv | App.tsx:49-110 | one tick keeps the invariant: only table appliances run, `wasted = 0.05 + 0.002*duration`, a shown notification is the shower message with a clearing timer pending, and the goal is positive |
| Simulation.ClearNotificationPreservesInv | App.tsx:64 | the 5-second timer clears the notification and keeps the invariant |
| Simulation.RunPreservesInv | App.tsx:49-110 | any run of ticks keeps the invariant |
| Simulation.UsedNeverDecreases | App.tsx:67-70 | over any run `used` never decreases; goal, projected bill and average bill never change |
| Simulation.LogOnlyGrowsAtHead | App.tsx:73-84 | over any run the old log is the tail of the new log, in order; at most one event per tick is added; every added event names a table appliance, has icon "tap" and a whole volume 1..5 |
| Simulation.GaugeLabelInRange | App.tsx:136 | the gauge label for `used/goal*100` of any reachable state is a whole number from 0 to 100 |
| Simulation.Dashboard.constructor | App.tsx:23-45 | the dashboard mounts with the initial stats, three seeded events, no flow, no leak, no notification and sensitivity 75 |
| Simulation.Dashboard.Tick | App.tsx:49-110 | the in-place interval callback produces exactly `NextState` of the old state and keeps the invariant |
| Simulation.Dashboard.NotificationTimerFires | App.tsx:64 | a firing notification timer clears the notification and consumes one pending timer |
| Simulation.Dashboard.SetSensitivity | App.tsx:313-318 | the slider sets sensitivity to a value in 0..100 and changes nothing else |
| DurationFormat.DecimalString | App.tsx:118 | a printed whole number is a non-empty digit string with no leading zero unless it is 0 |
| DurationFormat.DecimalRoundTrip | App.tsx:118 | reading the printed digits back gives the number |
| DurationFormat.SplitDuration | App.tsx:116-117 | minutes and seconds satisfy `m*60 + s == secs` and `0 <= s < 60` |
| DurationFormat.FormatDurationRoundTrip | App.tsx:115-119 | the `"<m>m <s>s"` text reads back as exactly the original number of seconds |
| DurationFormat.FormatDurationInjective | App.tsx:115-119 | two different durations never show the same text |
| WaterPulse.SafePercent | components/WaterPulse.tsx:11 | the clamped value lies in [0,100], equals the input when it is already in range, is 0 below and 100 above |
| WaterPulse.Round | components/WaterPulse.tsx:42 | `Math.round` gives the nearest integer, with halves rounded up |
| WaterPulse.PercentLabel | components/WaterPulse.tsx:42 | the printed label is a whole number from 0 to 100 |
| WaterPulse.GaugeMonotone | components/WaterPulse.tsx:11-42 | a larger percentage never gives a lower level or a lower label |
| RepairWizard.NextPreservesValid | components/ARRepairMode.tsx:34-45 | every input keeps `step` a valid index into the four-entry script, and a scheduled scan only at step 0 |
| RepairWizard.ActionAdvances | components/ARRepairMode.tsx:39-41 | at steps 1 and 2 the action raises `step` by exactly one |
| RepairWizard.ActionAtLastStepCloses | components/ARRepairMode.tsx:42-44 | at step 3 the action calls `onClose` and leaves `step` unchanged |
| RepairWizard.PressAtScanIgnored | components/ARRepairMode.tsx:36-38 | at step 0 a press changes nothing, because the button is disabled (line 106); `handleAction` there would only schedule the scan, not advance |
| RepairWizard.CloseFromAnyStep | components/ARRepairMode.tsx:64-66 | the close button calls `onClose` from any step |
| RepairWizard.StepMonotone | components/ARRepairMode.tsx:34-45 | over any inputs `step` stays in 0..3, never decreases and rises by at most one per input |
| RepairWizard.StuckAtScan | components/ARRepairMode.tsx:36-38 | as written, from step 0 with no scan scheduled, no inputs ever move `step` off 0 |
| RepairWizard.StuckAtScanExample | components/ARRepairMode.tsx:104-106 | the timer and three presses leave a freshly mounted overlay open at step 0 |
| RepairWizard.ScheduledScanCompletes | components/ARRepairMode.tsx:11-45 | with the scan scheduled at mount, the timer and three presses go through steps 1, 2 and 3 and then close |
| RepairWizard.RenderShows | components/ARRepairMode.tsx:78-113 | the "Tighten Here" arrow shows iff step >= 2; the completion icon iff step 3; the scanning heading and the disabled button iff step 0; text and label are the current script entry's |
| RepairWizard.ARRepairMode.constructor | components/ARRepairMode.tsx:9 | the overlay mounts at step 0, with no scan scheduled, open |
| RepairWizard.ARRepairMode.Action | components/ARRepairMode.tsx:104-106 | a click on the action button changes the state exactly as `Next(_, Press)` does and keeps it valid |
| RepairWizard.ARRepairMode.ScanTimerFires | components/ARRepairMode.tsx:38 | the scan timer adds one to `step` only when it was scheduled and the overlay is open |
| RepairWizard.ARRepairMode.Close | components/ARRepairMode.tsx:64-66 | the close button closes the overlay and leaves `step` unchanged |

## Findings

| source | as written | input that shows it | evidently intended | confidence | as-written member | corrected member |
|---|---|---|---|---|---|---|
| components/ARRepairMode.tsx:36-38 | the scan timer is scheduled only from `handleAction` at step 0, but the action button is disabled at step 0 (line 106), so the overlay never leaves step 0 | mount the overlay, wait, then press three times: it stays open at step 0 with "Scanning..." | step 0 advances by itself after 2000 ms, as the step's unused `delay: 2000` and the button's wait cursor suggest | high; not executed | RepairWizard.StuckAtScan | RepairWizard.ScheduledScanCompletes |

The component classes keep the code as written. `ARRepairMode`'s constructor mounts with no scan scheduled. The corrected mount is `RepairWizard.MountedWithScan`.

## Left out

- JSX rendering, CSS classes, icons and the background image are presentation. Only the facts the overlay tests on `step` are modelled (`RepairWizard.Render`).
- The view router (App.tsx:23, 264-364) is a plain enum switch. `onClose` is modelled only as the overlay becoming closed, after which no input changes it.
- components/WaterGridMap.tsx is not part of this model. It generates random points, triangulates them with d3's Delaunay (a foreign library) and draws them.
- components/UsageChart.tsx is not part of this model. It is a static table drawn by recharts.
- Event `id` and `timestamp` come from `Date.now()` and are dropped. So are `toLocaleTimeString` and the `toFixed(3)` display of the loss.
- IEEE-754 floating point is not modelled. `used`, rates, `wasted`, the threshold and the percentage are exact reals, so rounding drift in `wasted = 0.05 + 0.002*duration` is not captured.
- Wall-clock time is not modelled. The interval and the two timers are events, in any order the caller chooses. The notification timer is not cancelled on unmount, and it clears whatever notification is showing; the model keeps both behaviours.
- The interval is re-created whenever `activeFlow`, `ghostLeak` or the sensitivity changes. Each tick reads those three as they stand at the tick. The model takes that as given and leaves out the timing jitter of re-creating the interval.
- `Run` keeps the sensitivity fixed across a run. The slider may change it between ticks through `Dashboard.SetSensitivity`.
- `UsagePercent` requires a non-zero goal. The source divides by a goal that stays at 80, so the JavaScript `Infinity`/`NaN` case cannot arise.
- `RepairWizard.HandleAction` keeps one flag for the scheduled scan. Scheduling twice at step 0 would start two timers, but `handleAction` cannot run at step 0 because the button is disabled there.
- The per-step `delay` fields of the script are kept as data. The source never reads them.
