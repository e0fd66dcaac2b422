/** The IoT device list: battery and signal tiers, the last-sync label, the
    status summary tiles and the signal read-out of an offline device. */
module DeviceManager {

  import opened Optional
  import opened Tones
  import opened Counting
  import RelativeTime

  datatype DeviceStatus = Online | Offline | Maintenance

  datatype DeviceType = Ecg | BloodPressureMonitor | PulseOximeter | Thermometer | GlucoseMeter

  datatype Device = Device(
    id: string,
    name: string,
    kind: DeviceType,
    status: DeviceStatus,
    patientId: Option<string>,
    batteryLevel: real,
    signalStrength: real,
    lastSync: int)

  /** Battery colour: success above 60 %, warning above 30 %, critical otherwise. */
  function BatteryTone(level: real): (t: Tone)
    ensures IsTrafficLight(t)
    ensures t == Success <==> level > 60.0
    ensures t == Warning <==> 30.0 < level <= 60.0
    ensures t == Critical <==> level <= 30.0
  {
    if level > 60.0 then Success
    else if level > 30.0 then Warning
    else Critical
  }

  /** Signal colour: success above 70 %, warning above 40 %, critical otherwise. */
  function SignalTone(strength: real): (t: Tone)
    ensures IsTrafficLight(t)
    ensures t == Success <==> strength > 70.0
    ensures t == Warning <==> 40.0 < strength <= 70.0
    ensures t == Critical <==> strength <= 40.0
  {
    if strength > 70.0 then Success
    else if strength > 40.0 then Warning
    else Critical
  }

  /** More charge never gives a worse battery colour. */
  lemma BatteryToneMonotone(low: real, high: real)
    requires low <= high
    ensures Badness(BatteryTone(high)) <= Badness(BatteryTone(low))
  {
  }

  /** A stronger signal never gives a worse signal colour. */
  lemma SignalToneMonotone(low: real, high: real)
    requires low <= high
    ensures Badness(SignalTone(high)) <= Badness(SignalTone(low))
  {
  }

  /** The signal cell of a device row: an icon (crossed out or not) with its
      colour, and a percentage with its colour. */
  datatype SignalCell = SignalCell(crossedOut: bool, iconTone: Tone, percent: real, textTone: Tone)

  /** An offline device shows a crossed-out critical icon and 0 %, whatever
      strength it reports; any other device shows its strength, icon and text
      both in the signal colour. The text colour is always taken from the
      reported strength. */
  function SignalCellOf(d: Device): (c: SignalCell)
    ensures c.crossedOut <==> d.status == Offline
    ensures d.status == Offline ==> c.iconTone == Critical && c.percent == 0.0
    ensures d.status != Offline ==> c.percent == d.signalStrength && c.iconTone == c.textTone
    ensures c.textTone == SignalTone(d.signalStrength)
    ensures c.textTone == Success <==> d.signalStrength > 70.0
    ensures c.textTone == Warning <==> 40.0 < d.signalStrength <= 70.0
    ensures c.textTone == Critical <==> d.signalStrength <= 40.0
    ensures d.status != Offline ==> c.iconTone == SignalTone(d.signalStrength)
  {
    if d.status == Offline then SignalCell(true, Critical, 0.0, SignalTone(d.signalStrength))
    else SignalCell(false, SignalTone(d.signalStrength), d.signalStrength, SignalTone(d.signalStrength))
  }

  /** The percentage an offline device shows does not depend on the strength
      it reports; an offline device that reports a strong signal shows "0%" in
      the success colour next to a critical icon. */
  lemma OfflineSignalShowsZero(d: Device, strength: real)
    requires d.status == Offline
    ensures SignalCellOf(d.(signalStrength := strength)).percent == SignalCellOf(d).percent == 0.0
    ensures strength > 70.0 ==>
      var c := SignalCellOf(d.(signalStrength := strength));
      c.iconTone == Critical && c.textTone == Success
  {
  }

  /** The last-sync column, for the clock reading `now`. */
  function FormatLastSync(now: int, lastSync: int): (text: string)
    ensures text == RelativeTime.JustNowText <==> now - lastSync < RelativeTime.MsPerMinute
    ensures RelativeTime.ParseLabel(text) == Some(RelativeTime.SinceLabel(now, lastSync))
    ensures forall t :: RelativeTime.ParseLabel(t) == Some(RelativeTime.SinceLabel(now, lastSync)) ==> t == text
  {
    var since := RelativeTime.SinceLabel(now, lastSync);
    RelativeTime.RenderRoundTrip(since);
    assert forall t :: RelativeTime.ParseLabel(t) == Some(since) ==> t == RelativeTime.Render(since) by {
      forall t | RelativeTime.ParseLabel(t) == Some(since)
        ensures t == RelativeTime.Render(since)
      {
        RelativeTime.ParseLabelOnlyRendered(t, since);
      }
    }
    RelativeTime.Render(since)
  }

  predicate IsOnline(d: Device) { d.status == Online }
  predicate IsOffline(d: Device) { d.status == Offline }
  predicate InMaintenance(d: Device) { d.status == Maintenance }

  /** The three summary tiles. */
  datatype StatusSummary = StatusSummary(online: nat, offline: nat, maintenance: nat)

  /** Each tile counts the devices in its status. */
  function Summarize(devices: seq<Device>): (s: StatusSummary)
    ensures s.online <= |devices| && s.offline <= |devices| && s.maintenance <= |devices|
    ensures s.online == |devices| <==> forall i :: 0 <= i < |devices| ==> devices[i].status == Online
    ensures s.online == 0 <==> forall i :: 0 <= i < |devices| ==> devices[i].status != Online
    ensures s.offline == 0 <==> forall i :: 0 <= i < |devices| ==> devices[i].status != Offline
    ensures s.maintenance == 0 <==> forall i :: 0 <= i < |devices| ==> devices[i].status != Maintenance
  {
    StatusSummary(Count(devices, IsOnline), Count(devices, IsOffline), Count(devices, InMaintenance))
  }

  /** The tiles of two lists put together are the sums of their tiles. */
  lemma SummarizeAppend(xs: seq<Device>, ys: seq<Device>)
    ensures Summarize(xs + ys) == StatusSummary(
      Summarize(xs).online + Summarize(ys).online,
      Summarize(xs).offline + Summarize(ys).offline,
      Summarize(xs).maintenance + Summarize(ys).maintenance)
  {
    CountAppend(xs, ys, IsOnline);
    CountAppend(xs, ys, IsOffline);
    CountAppend(xs, ys, InMaintenance);
  }

  /** A single device scores one on the tile of its own status and zero on
      the others. With `SummarizeAppend` this fixes every tile of every list. */
  lemma SummarizeOne(d: Device)
    ensures Summarize([d]) == StatusSummary(
      if d.status == Online then 1 else 0,
      if d.status == Offline then 1 else 0,
      if d.status == Maintenance then 1 else 0)
  {
  }

  /** Every device is in exactly one of the three statuses, so the tiles add
      up to the length of the list. */
  lemma TilesCoverAllDevices(devices: seq<Device>)
    ensures Summarize(devices).online + Summarize(devices).offline + Summarize(devices).maintenance == |devices|
  {
    CountPartition3(devices, IsOnline, IsOffline, InMaintenance);
  }
}
