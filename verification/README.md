# Healthcare IoT monitoring dashboard — decision rules

This project models the small pure rules inside the dashboard's React
components. It does not model the markup around them. The rules are:

- the vital-sign classifier of the patient monitor, and which reading feeds
  each of its four status cells;
- the colour tiers of the device list (battery, signal) and of the analytics
  insight cards (confidence bar, risk label);
- the "how long ago" label shared by the device list and the alert feed;
- the summary tiles: device status counts, alert counts, patient status
  distribution and the sidebar's system status;
- the population averages of the vitals;
- the alert acknowledge handler and the buttons an alert card offers;
- the rule that picks which patient the monitor shows.

CSS class strings are replaced by a `Tone` enum (`Success`, `Warning`,
`Critical`, `Primary`, `Muted`). Vital values, battery and signal levels and
confidences are mathematical reals. Timestamps are integer milliseconds, and
the current time is a parameter (`now`) instead of a `new Date()` call. Modules
follow the components: `PatientMonitor`, `DeviceManager`, `AlertCenter`,
`AnalyticsDashboard` and `HealthcareDashboard`. Shared parts live in `Health`
(records), `Tones`, `RelativeTime`, `Counting` (`filter(...).length` and its
lemmas) and `Optional`.

The main fact about the classifier: the monitor tests the warning band before
the critical band. Every critical band lies inside its warning band, so the
classifier never returns critical (`PatientMonitor.VitalStatus`).

The patient status distribution of the analytics page counts the `status`
label stored in each patient record (AnalyticsDashboard.tsx:44-46), not a
status derived from the vitals. The averages divide by the population size
without a guard, so an empty population gives `NaN`
(AnalyticsDashboard.tsx:48-51), which is modelled as `None`.

## Model

| member | source | states |
|---|---|---|
| PatientMonitor.VitalStatus | src/components/PatientMonitor.tsx:53-74 | the result is never critical; for each known reading it is warning exactly inside the strict warning band and stable otherwise; an unknown reading name is stable |
| PatientMonitor.CriticalBandInsideWarningBand | src/components/PatientMonitor.tsx:56-69 | every critical band (heart rate <50 or >120, temperature >101, SpO2 <90, systolic >160) lies inside its warning band |
| PatientMonitor.CriticalReadingShownAsWarning | src/components/PatientMonitor.tsx:56-57 | a reading inside its critical band is classified as warning |
| PatientMonitor.BandEdgesAreStable | src/components/PatientMonitor.tsx:56-68 | the edges 60, 100, 99.5, 95 and 140 classify as stable |
| PatientMonitor.HeartRate45ShownAsWarning | src/components/PatientMonitor.tsx:55-58 | a heart rate of 45 is in the critical band, yet the monitor shows warning, while the critical-first order gives critical |
| PatientMonitor.IntendedVitalStatus | src/components/PatientMonitor.tsx:53-74 | with the critical test first: critical exactly in the critical band, warning exactly in the warning band outside it, stable otherwise |
| PatientMonitor.IntendedAgreesOutsideCriticalBand | src/components/PatientMonitor.tsx:53-74 | the two test orders agree outside the critical bands and disagree (warning vs critical) everywhere inside them |
| PatientMonitor.PanelStatuses | src/components/PatientMonitor.tsx:148-251 | no cell of the vitals grid is critical; each cell is warning exactly when its reading is in its warning band; blood pressure is judged on systolic alone |
| PatientMonitor.PanelIgnoresDiastolic | src/components/PatientMonitor.tsx:185-187 | changing the diastolic value never changes the grid |
| PatientMonitor.Monitor | src/components/PatientMonitor.tsx:38-51 | with no patient the placeholder is shown; otherwise the grid of that patient's vitals, where no cell is critical and each cell is warning exactly when its reading is in its warning band |
| RelativeTime.SinceLabel | src/components/DeviceManager.tsx:78-89 | "Just now" exactly when less than a minute elapsed, future times included; minutes in 1..59, hours in 1..23, days ≥ 1; each number is the whole count of its unit in the elapsed time, and each shape covers exactly one range of elapsed time |
| RelativeTime.SinceLabelUnitMonotone | src/components/DeviceManager.tsx:83-88 | a later clock reading never gives a label in a smaller unit |
| RelativeTime.Decimal | src/components/DeviceManager.tsx:84 | the printed whole number is a non-empty digit string without leading zeros, starting with '0' only for zero |
| RelativeTime.DecimalOfParse | src/components/DeviceManager.tsx:84 | every digit string without leading zeros is the printed form of the number it reads as |
| RelativeTime.DecimalRoundTrip | src/components/DeviceManager.tsx:84 | the printed whole number reads back as the same number |
| RelativeTime.Render | src/components/AlertCenter.tsx:56-61 | the text is "Just now" exactly for the just-now label |
| RelativeTime.RenderRoundTrip | src/components/AlertCenter.tsx:56-61 | every rendered label reads back as the label it came from, so distinct labels give distinct text |
| RelativeTime.ParseLabelOnlyRendered | src/components/AlertCenter.tsx:56-61 | a text that reads back as a label is exactly that label's rendering, so reading back fixes the text, digits included |
| DeviceManager.BatteryTone | src/components/DeviceManager.tsx:66-70 | success iff level > 60, warning iff 30 < level ≤ 60, critical iff level ≤ 30 |
| DeviceManager.SignalTone | src/components/DeviceManager.tsx:72-76 | success iff strength > 70, warning iff 40 < strength ≤ 70, critical iff strength ≤ 40 |
| DeviceManager.BatteryToneMonotone | src/components/DeviceManager.tsx:66-70 | more charge never gives a worse battery tier |
| DeviceManager.SignalToneMonotone | src/components/DeviceManager.tsx:72-76 | a stronger signal never gives a worse signal tier |
| DeviceManager.SignalCellOf | src/components/DeviceManager.tsx:171-179 | an offline device shows a crossed-out critical icon and 0 %; others show their strength with icon and text in the signal tier; the text tier is always the signal tier of the reported strength, warning band included |
| DeviceManager.OfflineSignalShowsZero | src/components/DeviceManager.tsx:172-178 | an offline device's percentage is 0 whatever it reports; reporting a strong signal while offline gives "0%" in the success tier beside a critical icon |
| DeviceManager.FormatLastSync | src/components/DeviceManager.tsx:78-89 | the text is "Just now" exactly when less than a minute elapsed; it reads back as the relative-time label of the elapsed time, and it is the only text that does |
| DeviceManager.Summarize | src/components/DeviceManager.tsx:91-93 | no tile exceeds the number of devices; each tile is zero exactly when no device has its status; the online tile equals the length exactly when every device is online |
| DeviceManager.SummarizeAppend | src/components/DeviceManager.tsx:91-93 | the tiles of two lists put together are the tile-wise sums |
| DeviceManager.SummarizeOne | src/components/DeviceManager.tsx:91-93 | a single device scores one on the tile of its own status and zero on the others |
| DeviceManager.TilesCoverAllDevices | src/components/DeviceManager.tsx:91-93 | online + offline + maintenance equals the number of devices |
| AlertCenter.Summarize | src/components/AlertCenter.tsx:64-66 | no tile exceeds the list length; the critical (warning) tile is zero exactly when every critical (warning) alert is acknowledged; the open total is zero exactly when every alert is acknowledged; an empty list gives three zeros |
| AlertCenter.SummarizeAppend | src/components/AlertCenter.tsx:64-66 | the tiles of two lists put together are the tile-wise sums |
| AlertCenter.SummarizeOne | src/components/AlertCenter.tsx:64-66 | a single alert scores one on the open total exactly when open, and one on the critical or warning tile exactly when it is an open alert of that type |
| AlertCenter.OpenTotalBounds | src/components/AlertCenter.tsx:64-66 | the open total is the critical tile plus the warning tile plus the open info alerts, so it lies between critical + warning and the list length |
| AlertCenter.UnacknowledgedSplitsByType | src/components/AlertCenter.tsx:64-66 | the open alerts split exactly into open critical, warning and info alerts |
| AlertCenter.FormatTimestamp | src/components/AlertCenter.tsx:51-62 | the same label as the device list's last-sync column: "Just now" exactly under a minute, reading back as the relative-time label, and the only text that does |
| AlertCenter.OfferedActions | src/components/AlertCenter.tsx:161-208 | Acknowledge is offered exactly for open alerts; Call, Email, Emergency Protocol and Escalate to Doctor exactly for open critical alerts; the message button always |
| AlertCenter.AcknowledgeRequest | src/components/AlertCenter.tsx:175-178 | the button exists exactly when Acknowledge is offered, and pressing it reports the card's own id |
| AnalyticsDashboard.StatusDistribution | src/components/AnalyticsDashboard.tsx:44-46 | no count exceeds the population, and each count is zero exactly when no patient carries its label |
| AnalyticsDashboard.DistributionAppend | src/components/AnalyticsDashboard.tsx:44-46 | the distribution of two populations put together is the label-wise sum |
| AnalyticsDashboard.DistributionOne | src/components/AnalyticsDashboard.tsx:44-46 | a single patient counts once, under its own label |
| AnalyticsDashboard.DistributionCoversPopulation | src/components/AnalyticsDashboard.tsx:44-46 | stable + warning + critical equals the population |
| AnalyticsDashboard.SumBounds | src/components/AnalyticsDashboard.tsx:48 | a sum of values within [lo, hi] lies within [n·lo, n·hi] |
| AnalyticsDashboard.Mean | src/components/AnalyticsDashboard.tsx:48 | undefined (NaN) exactly for an empty list; otherwise mean × count = sum |
| AnalyticsDashboard.MeanWithinRange | src/components/AnalyticsDashboard.tsx:48 | the mean of values within a range lies within that range |
| AnalyticsDashboard.PopulationAverages | src/components/AnalyticsDashboard.tsx:48-51 | each of the four averages is undefined exactly for no patients and otherwise times the population equals the sum of that reading |
| AnalyticsDashboard.SystolicAverageIgnoresDiastolic | src/components/AnalyticsDashboard.tsx:49 | populations that agree on systolic values have the same systolic average, whatever their diastolic values |
| AnalyticsDashboard.SinglePatientAverages | src/components/AnalyticsDashboard.tsx:48-51 | a one-patient population averages to that patient's own readings |
| AnalyticsDashboard.HeartRateAverageWithinReadings | src/components/AnalyticsDashboard.tsx:48 | the heart-rate average lies between bounds that hold for every patient's heart rate |
| AnalyticsDashboard.ConfidenceTone | src/components/AnalyticsDashboard.tsx:178 | success iff c > 0.8, warning iff 0.6 < c ≤ 0.8, critical otherwise |
| AnalyticsDashboard.ConfidenceToneMonotone | src/components/AnalyticsDashboard.tsx:178 | more confidence never gives a worse tier |
| AnalyticsDashboard.RiskTone | src/components/AnalyticsDashboard.tsx:81-88 | high → critical, medium → warning, low → primary, and muted exactly for any other label |
| Counting.Count | src/components/DeviceManager.tsx:91 | the count is at most the length; zero exactly when no element matches; the length exactly when all match |
| Counting.CountAppend | src/components/DeviceManager.tsx:91 | the count of a concatenation is the sum of the counts of its parts |
| HealthcareDashboard.Acknowledge | src/components/HealthcareDashboard.tsx:441 | length and order kept; every alert with the id becomes acknowledged; alerts with other ids are unchanged; no field but the flag changes; acknowledged alerts stay acknowledged |
| HealthcareDashboard.AcknowledgeIdempotent | src/components/HealthcareDashboard.tsx:457 | acknowledging an id twice equals acknowledging it once |
| HealthcareDashboard.AcknowledgeCommutes | src/components/HealthcareDashboard.tsx:441 | acknowledging two ids in either order gives the same list |
| HealthcareDashboard.AcknowledgedCardsStopOffering | src/components/HealthcareDashboard.tsx:456-458 | after a card's Acknowledge button is pressed, no card with that id offers it any more |
| HealthcareDashboard.AcknowledgeNeverRaisesOpenCount | src/components/HealthcareDashboard.tsx:440-442 | any count of alerts that counts an acknowledged alert only if it also counted it while open is never raised by acknowledging |
| HealthcareDashboard.AcknowledgeNeverRaisesCounts | src/components/HealthcareDashboard.tsx:440-442 | acknowledging never raises the open critical, open warning or open total counts |
| HealthcareDashboard.AcknowledgeOpenAlertLowersCount | src/components/HealthcareDashboard.tsx:456-458 | acknowledging an open alert's id lowers the open total, and the critical count when that alert is critical |
| HealthcareDashboard.ComputeSystemStatus | src/components/HealthcareDashboard.tsx:228-233 | total patients is the list length; active devices is the online tile of the full-list device tab; critical alerts is the critical tile of the full-list alert tab; both at most their list's length |
| HealthcareDashboard.Refresh | src/components/HealthcareDashboard.tsx:224-237 | after a refresh the held lists are the generated ones, the sidebar tiles agree with them, and the selection follows the selection rule |
| HealthcareDashboard.OnAcknowledge | src/components/HealthcareDashboard.tsx:440-442 | the handler replaces the alert list with the acknowledged one and leaves the sidebar tiles, the other lists and the selection as they were |
| HealthcareDashboard.AcknowledgeLeavesSidebarStale | src/components/HealthcareDashboard.tsx:228-233 | from an in-step dashboard, acknowledging an open critical alert leaves the sidebar's critical tile above the alert center's critical count, so the tiles are out of step |
| HealthcareDashboard.OnAcknowledgeLive | src/components/HealthcareDashboard.tsx:440-442 | the recomputing handler acknowledges the same alerts, changes nothing else held, and keeps the sidebar tiles in step with the lists |
| HealthcareDashboard.LiveSidebarFollowsAcknowledge | src/components/HealthcareDashboard.tsx:228-233 | with the recomputing handler the sidebar's critical tile never rises, and drops when an open critical alert is acknowledged |
| HealthcareDashboard.RefreshDropsAcknowledgements | src/components/HealthcareDashboard.tsx:224-226 | the next refresh restores the generated alert list, so an acknowledgement does not survive it, with either handler |
| HealthcareDashboard.NextSelection | src/components/HealthcareDashboard.tsx:235-237 | an existing selection is kept; with none, the first generated patient is selected, or nothing if none was generated |
| HealthcareDashboard.SelectionSettles | src/components/HealthcareDashboard.tsx:235-246 | after one refresh with patients something is selected, and later refreshes never change it |
| HealthcareDashboard.KeptSelectionIsStale | src/components/HealthcareDashboard.tsx:235-237 | a refresh with new readings for the selected patient keeps the earlier snapshot, which is not in the new list |
| HealthcareDashboard.FindById | src/components/HealthcareDashboard.tsx:362 | the by-id lookup the corrected selection (`LiveSelection`) uses, matching ids as the sidebar ring compares them: the result, if any, is the first listed patient with that id; no result means no patient has that id |
| HealthcareDashboard.LiveSelection | src/components/HealthcareDashboard.tsx:235-237 | with nothing selected it agrees with the code; otherwise it keeps the selected patient's id and, when that patient is listed, shows the current snapshot from the list |

## Findings

| source | as written | input that shows it | evidently intended | confidence | as-written member | corrected member |
|---|---|---|---|---|---|---|
| src/components/PatientMonitor.tsx:56-69 | each reading tests its warning band before its critical band, and every critical band lies inside the warning band, so no vital is ever shown as critical | heart rate 45 (below both 60 and 50) is shown as warning | the critical band is tested first and wins | high; not executed | PatientMonitor.VitalStatus, PatientMonitor.HeartRate45ShownAsWarning | PatientMonitor.IntendedVitalStatus |
| src/components/HealthcareDashboard.tsx:228-233 | the sidebar tiles are computed only when the lists are generated; the acknowledge handlers replace the alert list without recomputing them | an open critical alert is acknowledged: the alert center's critical tile drops while the sidebar's Critical Alerts tile keeps the old count until the next refresh | the sidebar counts the alerts currently held | medium; not executed | HealthcareDashboard.OnAcknowledge, HealthcareDashboard.AcknowledgeLeavesSidebarStale | HealthcareDashboard.OnAcknowledgeLive, HealthcareDashboard.LiveSidebarFollowsAcknowledge |
| src/components/HealthcareDashboard.tsx:235-237 | a refresh keeps the selected patient object, which is the snapshot from the moment of selection | patient P001 selected, then a refresh lists P001 with new vitals: the monitor keeps the earlier vitals | the monitor follows the selected patient's current snapshot | medium; not executed | HealthcareDashboard.NextSelection, HealthcareDashboard.KeptSelectionIsStale | HealthcareDashboard.LiveSelection |

The vital colour map `getStatusColor` has a `'critical'` case
(PatientMonitor.tsx:89) and is applied only to classifier results
(PatientMonitor.tsx:150, 186, 218, 250), which shows the critical branch was
meant to be reachable. The vitals grid (`PatientMonitor.PanelStatuses`) models the monitor
as written. It uses the as-written classifier, as the displayed page does.
`IntendedVitalStatus` and `IntendedAgreesOutsideCriticalBand` state how the
corrected classifier would differ. In the same way, `NextSelection` is the
code's rule and `LiveSelection` is the corrected one, and `OnAcknowledge` is
the code's handler and `OnAcknowledgeLive` the corrected one. The rest of the
model states facts about each as-written member separately, so the corrected
members appear only beside them.

## Left out

- JSX layout, icons, badge variants and CSS class strings. Colours are the `Tone` enum; the status-to-colour and status-to-icon maps (`getStatusColor`, `getStatusIcon`, `getAlertColor`, `getRiskBg`, `getDeviceIcon`) only choose markup.
- Mock-data generation (HealthcareDashboard.tsx:84-222). It draws on `Math.random()` and `new Date()`, and it hard-codes each patient's status label, so no relation ties the labels to the vitals.
- The five-second `setInterval` timer, React's batching of state updates, effect plumbing, and tab switching. These are timer and UI lifecycle code. One tick is modelled as one application of `Refresh`; the schedule of ticks is not.
- The overview tab's `slice(0, 5)` and `slice(0, 4)` (HealthcareDashboard.tsx:440, 443). On that tab the alert center and the device list compute their tiles and the open-alert badge from the truncated lists (AlertCenter.tsx:64-66, 76-80; DeviceManager.tsx:91-93), so they count only the first five alerts and the first four devices. The modelled tiles are those of the full-list tabs; the overview tab's tiles agree with them only because the generated lists hold three alerts and four devices. The acknowledge handler maps the full alert list on both tabs, which is what `Acknowledge` models.
- BackendStatus.tsx (a network fetch with a fallback string) and EdgeComputingPanel.tsx (static literals and a random inference time). Neither has logic behind it.
- The AI-insight and model-performance literals. These are constants shown on screen.
- Display rounding: `Math.round`, `toFixed` and the percentage labels (AnalyticsDashboard.tsx:223-243). This is floating-point formatting.
- AnalyticsDashboard.PopulationAverages: uses exact real arithmetic, not IEEE double rounding, so the averages are exact means. `NaN` from an empty list is `None`.
- PatientMonitor.VitalStatus: readings are reals, so `NaN` and infinite readings are not modelled. In the code every comparison with `NaN` is false, so such a reading would classify as stable.
- DeviceManager.Summarize: the status is a closed three-value type here. A status string outside the union is not modelled, since the TypeScript type excludes it.
- HealthcareDashboard.AcknowledgedCardsStopOffering: holds for the list the handler produces. The next refresh, at most five seconds later, replaces that list with the generated one (HealthcareDashboard.tsx:226), so a mock alert generated as open offers Acknowledge again; `RefreshDropsAcknowledgements` states this.
- HealthcareDashboard.ComputeSystemStatus: holds when the lists are generated. The acknowledge handlers do not recompute the tiles, so after an acknowledgement the critical tile can exceed the alert center's count until the next refresh; see Findings.
- DeviceManager.BatteryTone, DeviceManager.SignalTone, AnalyticsDashboard.ConfidenceTone: levels are reals, so `NaN` is not modelled. In the code every comparison with `NaN` is false, so a `NaN` battery level, signal strength or confidence would get the critical tier. The values in the code are literals, so this does not arise.
