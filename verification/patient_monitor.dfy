/** The vital-sign panel of the patient monitor: the per-reading classifier and
    which reading feeds each of its four calls. */
module PatientMonitor {

  import opened Optional
  import opened Health

  /** The reading names the panel passes to the classifier. */
  const HeartRateKey: string := "heartRate"
  const TemperatureKey: string := "temperature"
  const OxygenKey: string := "oxygenSaturation"
  const BloodPressureKey: string := "bloodPressure"

  predicate IsKnownVital(vital: string) {
    vital == HeartRateKey || vital == TemperatureKey || vital == OxygenKey || vital == BloodPressureKey
  }

  /** The warning band of each reading, strict at both ends. */
  predicate WarningBand(vital: string, value: real) {
    if vital == HeartRateKey then value < 60.0 || value > 100.0
    else if vital == TemperatureKey then value > 99.5
    else if vital == OxygenKey then value < 95.0
    else if vital == BloodPressureKey then value > 140.0
    else false
  }

  /** The critical band of each reading, as its thresholds are written. */
  predicate CriticalBand(vital: string, value: real) {
    if vital == HeartRateKey then value < 50.0 || value > 120.0
    else if vital == TemperatureKey then value > 101.0
    else if vital == OxygenKey then value < 90.0
    else if vital == BloodPressureKey then value > 160.0
    else false
  }

  /** Every critical band lies inside its warning band. */
  lemma CriticalBandInsideWarningBand(vital: string, value: real)
    requires CriticalBand(vital, value)
    ensures WarningBand(vital, value)
  {
  }

  /** The classifier as the monitor runs it: the warning test comes first, so
      the critical tests behind it are never reached. The result is a pure
      function of the two arguments. */
  function VitalStatus(vital: string, value: real): (s: Status)
    ensures s != Critical
    ensures s == Warning <==> WarningBand(vital, value)
    ensures s == Stable <==> !WarningBand(vital, value)
    ensures !IsKnownVital(vital) ==> s == Stable
  {
    if vital == "heartRate" then
      if value < 60.0 || value > 100.0 then Warning
      else if value < 50.0 || value > 120.0 then Critical
      else Stable
    else if vital == "temperature" then
      if value > 99.5 then Warning
      else if value > 101.0 then Critical
      else Stable
    else if vital == "oxygenSaturation" then
      if value < 95.0 then Warning
      else if value < 90.0 then Critical
      else Stable
    else if vital == "bloodPressure" then
      if value > 140.0 then Warning
      else if value > 160.0 then Critical
      else Stable
    else
      Stable
  }

  /** A reading in its critical band is shown as a warning, never as critical. */
  lemma CriticalReadingShownAsWarning(vital: string, value: real)
    requires CriticalBand(vital, value)
    ensures VitalStatus(vital, value) == Warning
  {
    CriticalBandInsideWarningBand(vital, value);
  }

  /** The band edges themselves are stable: every band is strict. */
  lemma BandEdgesAreStable()
    ensures VitalStatus(HeartRateKey, 60.0) == Stable
    ensures VitalStatus(HeartRateKey, 100.0) == Stable
    ensures VitalStatus(TemperatureKey, 99.5) == Stable
    ensures VitalStatus(OxygenKey, 95.0) == Stable
    ensures VitalStatus(BloodPressureKey, 140.0) == Stable
  {
  }

  /** The classifier with the critical test first, the order the thresholds
      evidently intend: the worse band wins. */
  function IntendedVitalStatus(vital: string, value: real): (s: Status)
    ensures s == Critical <==> CriticalBand(vital, value)
    ensures s == Warning <==> WarningBand(vital, value) && !CriticalBand(vital, value)
    ensures s == Stable <==> !WarningBand(vital, value)
  {
    if CriticalBand(vital, value) then Critical
    else if WarningBand(vital, value) then Warning
    else Stable
  }

  /** Outside the critical bands the two orders agree; inside them the monitor
      as written says warning where critical is meant. */
  lemma IntendedAgreesOutsideCriticalBand(vital: string, value: real)
    ensures !CriticalBand(vital, value) ==> VitalStatus(vital, value) == IntendedVitalStatus(vital, value)
    ensures CriticalBand(vital, value) ==>
      VitalStatus(vital, value) == Warning && IntendedVitalStatus(vital, value) == Critical
  {
    if CriticalBand(vital, value) {
      CriticalBandInsideWarningBand(vital, value);
    }
  }

  /** A heart rate of 45 bpm: below both 60 and 50, shown as a warning. */
  lemma HeartRate45ShownAsWarning()
    ensures CriticalBand(HeartRateKey, 45.0)
    ensures VitalStatus(HeartRateKey, 45.0) == Warning
    ensures IntendedVitalStatus(HeartRateKey, 45.0) == Critical
  {
  }

  /** The four status cells of the vital-signs grid. */
  datatype VitalsPanel = VitalsPanel(
    heartRate: Status,
    bloodPressure: Status,
    temperature: Status,
    oxygenSaturation: Status)

  /** Each card classifies one reading; blood pressure is judged on the
      systolic value alone. */
  function PanelStatuses(v: HealthMetrics): (p: VitalsPanel)
    ensures p.heartRate != Critical && p.bloodPressure != Critical
    ensures p.temperature != Critical && p.oxygenSaturation != Critical
    ensures p.heartRate == Warning <==> v.heartRate < 60.0 || v.heartRate > 100.0
    ensures p.bloodPressure == Warning <==> v.bloodPressure.systolic > 140.0
    ensures p.temperature == Warning <==> v.temperature > 99.5
    ensures p.oxygenSaturation == Warning <==> v.oxygenSaturation < 95.0
  {
    VitalsPanel(
      VitalStatus(HeartRateKey, v.heartRate),
      VitalStatus(BloodPressureKey, v.bloodPressure.systolic),
      VitalStatus(TemperatureKey, v.temperature),
      VitalStatus(OxygenKey, v.oxygenSaturation))
  }

  /** The diastolic value never changes what the panel shows. */
  lemma PanelIgnoresDiastolic(v: HealthMetrics, diastolic: real)
    ensures PanelStatuses(v.(bloodPressure := v.bloodPressure.(diastolic := diastolic))) == PanelStatuses(v)
  {
  }

  /** With no patient selected the monitor shows the placeholder (`None`);
      otherwise it shows the panel of that patient's vitals: no cell is
      critical, and each cell is a warning exactly when its reading is in its
      warning band. */
  function Monitor(patient: Option<Patient>): (view: Option<VitalsPanel>)
    ensures view.None? <==> patient.None?
    ensures view.Some? ==>
      view.value.heartRate != Critical && view.value.bloodPressure != Critical
      && view.value.temperature != Critical && view.value.oxygenSaturation != Critical
    ensures patient.Some? ==>
      view.Some?
      && (view.value.heartRate == Warning <==> WarningBand(HeartRateKey, patient.value.vitals.heartRate))
      && (view.value.bloodPressure == Warning
          <==> WarningBand(BloodPressureKey, patient.value.vitals.bloodPressure.systolic))
      && (view.value.temperature == Warning <==> WarningBand(TemperatureKey, patient.value.vitals.temperature))
      && (view.value.oxygenSaturation == Warning
          <==> WarningBand(OxygenKey, patient.value.vitals.oxygenSaturation))
  {
    match patient
    case None => None
    case Some(p) => Some(PanelStatuses(p.vitals))
  }
}
