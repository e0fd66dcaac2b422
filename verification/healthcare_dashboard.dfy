/** The top-level dashboard: the acknowledge handler, the sidebar's system
    status tiles and the rule that picks the patient the monitor shows. */
module HealthcareDashboard {

  import opened Optional
  import opened Counting
  import Health
  import AlertCenter
  import DeviceManager

  // ---------------------------------------------------------------------
  // Acknowledging an alert
  // ---------------------------------------------------------------------

  /** One alert after the acknowledge handler saw `id`. */
  function AcknowledgeOne(a: AlertCenter.Alert, id: string): AlertCenter.Alert {
    if a.id == id then a.(acknowledged := true) else a
  }

  /** The handler maps over the list: every alert carrying `id` becomes
      acknowledged, every other alert is left as it was, and no field but the
      flag changes. Length and order are kept. */
  function Acknowledge(alerts: seq<AlertCenter.Alert>, id: string): (r: seq<AlertCenter.Alert>)
    ensures |r| == |alerts|
    ensures forall i :: 0 <= i < |alerts| && alerts[i].id == id ==> r[i].acknowledged
    ensures forall i :: 0 <= i < |alerts| && alerts[i].id != id ==> r[i] == alerts[i]
    ensures forall i :: 0 <= i < |alerts| ==> r[i] == alerts[i].(acknowledged := r[i].acknowledged)
    ensures forall i :: 0 <= i < |alerts| && alerts[i].acknowledged ==> r[i].acknowledged
  {
    seq(|alerts|, i requires 0 <= i < |alerts| => AcknowledgeOne(alerts[i], id))
  }

  /** Acknowledging the same id twice is the same as once. */
  lemma AcknowledgeIdempotent(alerts: seq<AlertCenter.Alert>, id: string)
    ensures Acknowledge(Acknowledge(alerts, id), id) == Acknowledge(alerts, id)
  {
  }

  /** Acknowledgements for different ids commute. */
  lemma AcknowledgeCommutes(alerts: seq<AlertCenter.Alert>, id1: string, id2: string)
    ensures Acknowledge(Acknowledge(alerts, id1), id2) == Acknowledge(Acknowledge(alerts, id2), id1)
  {
  }

  /** After the Acknowledge button of a card is pressed, no card with that id
      offers it any more. */
  lemma AcknowledgedCardsStopOffering(alerts: seq<AlertCenter.Alert>, k: int)
    requires 0 <= k < |alerts|
    requires AlertCenter.AcknowledgeRequest(alerts[k]).Some?
    ensures var r := Acknowledge(alerts, AlertCenter.AcknowledgeRequest(alerts[k]).value);
      forall i :: 0 <= i < |r| && r[i].id == alerts[k].id ==>
        AlertCenter.Acknowledge !in AlertCenter.OfferedActions(r[i])
  {
  }

  /** A tile that counts only open alerts (an alert it counts once
      acknowledged it also counted before) is never raised by acknowledging. */
  lemma AcknowledgeNeverRaisesOpenCount(
    alerts: seq<AlertCenter.Alert>, id: string, counts: AlertCenter.Alert -> bool)
    requires forall a: AlertCenter.Alert :: counts(a.(acknowledged := true)) ==> counts(a)
    ensures Count(Acknowledge(alerts, id), counts) <= Count(alerts, counts)
  {
    CountPointwise(alerts, Acknowledge(alerts, id), counts);
  }

  /** Acknowledging never raises any of the alert tiles: neither the open
      critical count, the open warning count, nor the open total. */
  lemma AcknowledgeNeverRaisesCounts(alerts: seq<AlertCenter.Alert>, id: string)
    ensures var after := Acknowledge(alerts, id);
      Count(after, AlertCenter.IsCriticalUnacknowledged) <= Count(alerts, AlertCenter.IsCriticalUnacknowledged)
      && Count(after, AlertCenter.IsWarningUnacknowledged) <= Count(alerts, AlertCenter.IsWarningUnacknowledged)
      && Count(after, AlertCenter.IsUnacknowledged) <= Count(alerts, AlertCenter.IsUnacknowledged)
  {
    AcknowledgeNeverRaisesOpenCount(alerts, id, AlertCenter.IsCriticalUnacknowledged);
    AcknowledgeNeverRaisesOpenCount(alerts, id, AlertCenter.IsWarningUnacknowledged);
    AcknowledgeNeverRaisesOpenCount(alerts, id, AlertCenter.IsUnacknowledged);
  }

  /** Acknowledging the id of an open alert strictly lowers the open total,
      and strictly lowers the critical tile when that alert is critical. */
  lemma AcknowledgeOpenAlertLowersCount(alerts: seq<AlertCenter.Alert>, k: int)
    requires 0 <= k < |alerts| && !alerts[k].acknowledged
    ensures var after := Acknowledge(alerts, alerts[k].id);
      Count(after, AlertCenter.IsUnacknowledged) < Count(alerts, AlertCenter.IsUnacknowledged)
      && (alerts[k].kind == AlertCenter.CriticalAlert ==>
        Count(after, AlertCenter.IsCriticalUnacknowledged) < Count(alerts, AlertCenter.IsCriticalUnacknowledged))
  {
    var r := Acknowledge(alerts, alerts[k].id);
    CountPointwiseStrict(alerts, r, AlertCenter.IsUnacknowledged, k);
    if alerts[k].kind == AlertCenter.CriticalAlert {
      CountPointwiseStrict(alerts, r, AlertCenter.IsCriticalUnacknowledged, k);
    }
  }

  // ---------------------------------------------------------------------
  // System status
  // ---------------------------------------------------------------------

  datatype SystemStatus = SystemStatus(
    totalPatients: nat,
    activeDevices: nat,
    criticalAlerts: nat,
    systemUptime: string)

  /** The sidebar tiles: patient total, online devices and open critical
      alerts, computed with the same rules as the device manager's online
      tile and the alert center's critical tile; the uptime is a fixed label. */
  function ComputeSystemStatus(
    patients: seq<Health.Patient>,
    devices: seq<DeviceManager.Device>,
    alerts: seq<AlertCenter.Alert>): (s: SystemStatus)
    ensures s.totalPatients == |patients|
    ensures s.activeDevices == DeviceManager.Summarize(devices).online
    ensures s.criticalAlerts == AlertCenter.Summarize(alerts).critical
    ensures s.activeDevices <= |devices| && s.criticalAlerts <= |alerts|
    ensures s.systemUptime == "99.9%"
  {
    SystemStatus(
      |patients|,
      Count(devices, DeviceManager.IsOnline),
      Count(alerts, AlertCenter.IsCriticalUnacknowledged),
      "99.9%")
  }

  // ---------------------------------------------------------------------
  // Dashboard state across refreshes and acknowledgements
  // ---------------------------------------------------------------------

  /** The component state the handlers touch: the three lists, the sidebar
      tiles and the selected patient. */
  datatype Dashboard = Dashboard(
    patients: seq<Health.Patient>,
    devices: seq<DeviceManager.Device>,
    alerts: seq<AlertCenter.Alert>,
    status: SystemStatus,
    selected: Option<Health.Patient>)

  /** The sidebar tiles agree with the lists currently held. */
  predicate SidebarInSync(d: Dashboard) {
    d.status == ComputeSystemStatus(d.patients, d.devices, d.alerts)
  }

  /** One tick of the refresh: the generated lists replace the held ones, so
      every earlier acknowledgement is dropped; the tiles are recomputed from
      the generated lists; the selection follows `NextSelection`. */
  function Refresh(
    d: Dashboard,
    patients: seq<Health.Patient>,
    devices: seq<DeviceManager.Device>,
    alerts: seq<AlertCenter.Alert>): (r: Dashboard)
    ensures SidebarInSync(r)
    ensures r.patients == patients && r.devices == devices && r.alerts == alerts
    ensures r.selected == NextSelection(d.selected, patients)
  {
    Dashboard(patients, devices, alerts, ComputeSystemStatus(patients, devices, alerts),
      NextSelection(d.selected, patients))
  }

  /** The acknowledge handler as written: it replaces the alert list and
      leaves everything else, the sidebar tiles included, as it was. */
  function OnAcknowledge(d: Dashboard, id: string): (r: Dashboard)
    ensures r.alerts == Acknowledge(d.alerts, id)
    ensures r.status == d.status && r.patients == d.patients
    ensures r.devices == d.devices && r.selected == d.selected
  {
    d.(alerts := Acknowledge(d.alerts, id))
  }

  /** Acknowledging an open critical alert leaves the sidebar's critical tile
      one step behind the alert list it is meant to count: the tile keeps the
      old count while the alert center's critical tile drops. */
  lemma AcknowledgeLeavesSidebarStale(d: Dashboard, k: int)
    requires SidebarInSync(d)
    requires 0 <= k < |d.alerts| && AlertCenter.IsCriticalUnacknowledged(d.alerts[k])
    ensures OnAcknowledge(d, d.alerts[k].id).status.criticalAlerts
      > AlertCenter.Summarize(OnAcknowledge(d, d.alerts[k].id).alerts).critical
    ensures !SidebarInSync(OnAcknowledge(d, d.alerts[k].id))
  {
    var r := Acknowledge(d.alerts, d.alerts[k].id);
    CountPointwiseStrict(d.alerts, r, AlertCenter.IsCriticalUnacknowledged, k);
  }

  /** The handler the sidebar evidently expects: the tiles are recomputed
      from the acknowledged list, so they stay in step with it. */
  function OnAcknowledgeLive(d: Dashboard, id: string): (r: Dashboard)
    ensures SidebarInSync(r)
    ensures r.alerts == Acknowledge(d.alerts, id)
    ensures r.patients == d.patients && r.devices == d.devices && r.selected == d.selected
  {
    var alerts := Acknowledge(d.alerts, id);
    d.(alerts := alerts, status := ComputeSystemStatus(d.patients, d.devices, alerts))
  }

  /** With the recomputing handler the sidebar's critical tile never rises,
      and it drops together with the alert center's tile when an open critical
      alert is acknowledged. */
  lemma LiveSidebarFollowsAcknowledge(d: Dashboard, k: int)
    requires SidebarInSync(d)
    requires 0 <= k < |d.alerts|
    ensures OnAcknowledgeLive(d, d.alerts[k].id).status.criticalAlerts <= d.status.criticalAlerts
    ensures AlertCenter.IsCriticalUnacknowledged(d.alerts[k]) ==>
      OnAcknowledgeLive(d, d.alerts[k].id).status.criticalAlerts < d.status.criticalAlerts
  {
    var r := Acknowledge(d.alerts, d.alerts[k].id);
    AcknowledgeNeverRaisesOpenCount(d.alerts, d.alerts[k].id, AlertCenter.IsCriticalUnacknowledged);
    if AlertCenter.IsCriticalUnacknowledged(d.alerts[k]) {
      CountPointwiseStrict(d.alerts, r, AlertCenter.IsCriticalUnacknowledged, k);
    }
  }

  /** The next refresh brings back every generated alert as generated: an
      acknowledgement made in between does not survive it. */
  lemma RefreshDropsAcknowledgements(
    d: Dashboard, id: string,
    patients: seq<Health.Patient>,
    devices: seq<DeviceManager.Device>,
    alerts: seq<AlertCenter.Alert>)
    ensures Refresh(OnAcknowledge(d, id), patients, devices, alerts).alerts == alerts
    ensures Refresh(OnAcknowledgeLive(d, id), patients, devices, alerts)
      == Refresh(d, patients, devices, alerts)
  {
  }

  // ---------------------------------------------------------------------
  // Selected patient
  // ---------------------------------------------------------------------

  /** On each refresh, with nothing selected the first generated patient is
      selected (none if the list is empty, where indexing gives `undefined`);
      an existing selection is kept as it is. */
  function NextSelection(selected: Option<Health.Patient>, generated: seq<Health.Patient>)
    : (r: Option<Health.Patient>)
    ensures selected.Some? ==> r == selected
    ensures selected.None? ==> (r.Some? <==> |generated| > 0)
    ensures selected.None? && r.Some? ==> r.value == generated[0]
  {
    if selected.None? then
      if |generated| > 0 then Some(generated[0]) else None
    else selected
  }

  /** Once something is selected, later refreshes never change it. */
  lemma SelectionSettles(selected: Option<Health.Patient>, g1: seq<Health.Patient>, g2: seq<Health.Patient>)
    requires |g1| > 0
    ensures NextSelection(selected, g1).Some?
    ensures NextSelection(NextSelection(selected, g1), g2) == NextSelection(selected, g1)
  {
  }

  /** The kept selection is the snapshot taken when it was made: a refresh
      that brings new readings for the same patient does not reach the
      monitor. */
  lemma KeptSelectionIsStale(earlier: Health.Patient, current: Health.Patient)
    requires earlier.id == current.id && earlier.vitals != current.vitals
    ensures NextSelection(Some(earlier), [current]) == Some(earlier)
    ensures NextSelection(Some(earlier), [current]).value !in [current]
  {
  }

  /** The first patient in `generated` with the given id, if any. */
  function FindById(generated: seq<Health.Patient>, id: string): (r: Option<Health.Patient>)
    ensures r.Some? ==> r.value in generated && r.value.id == id
    ensures r.None? ==> forall i :: 0 <= i < |generated| ==> generated[i].id != id
    ensures r.Some? ==>
      exists k :: 0 <= k < |generated| && generated[k] == r.value
        && forall j :: 0 <= j < k ==> generated[j].id != id
  {
    if |generated| == 0 then None
    else if generated[0].id == id then Some(generated[0])
    else FindById(generated[1..], id)
  }

  /** The selection the monitor evidently means to show: the current snapshot
      of the selected patient, found by id; the old snapshot only when that
      patient is no longer listed; the first patient when nothing is selected. */
  function LiveSelection(selected: Option<Health.Patient>, generated: seq<Health.Patient>)
    : (r: Option<Health.Patient>)
    ensures selected.None? ==> r == NextSelection(selected, generated)
    ensures selected.Some? ==> r.Some? && r.value.id == selected.value.id
    ensures selected.Some? && (exists i :: 0 <= i < |generated| && generated[i].id == selected.value.id)
      ==> r.value in generated
  {
    match selected
    case None => NextSelection(selected, generated)
    case Some(p) =>
      match FindById(generated, p.id)
      case Some(q) => Some(q)
      case None => Some(p)
  }
}
