/** The records the dashboard components share: a patient snapshot with its
    vitals. Numbers are mathematical reals; timestamps are milliseconds since the
    epoch, as `Date.getTime()` returns them. */
module Health {

  /** A patient's overall status, as the data source labels it. */
  datatype Status = Stable | Warning | Critical

  datatype BloodPressure = BloodPressure(systolic: real, diastolic: real)

  datatype HealthMetrics = HealthMetrics(
    heartRate: real,
    bloodPressure: BloodPressure,
    temperature: real,
    oxygenSaturation: real,
    timestamp: int)

  datatype Patient = Patient(
    id: string,
    name: string,
    age: int,
    condition: string,
    status: Status,
    lastUpdate: int,
    vitals: HealthMetrics)
}

/** The colour tiers the components pick CSS classes from, with the class
    strings replaced by their meaning. */
module Tones {

  datatype Tone = Success | Warning | Critical | Primary | Muted

  /** The traffic-light tiers, ordered from good to bad. */
  predicate IsTrafficLight(t: Tone) {
    t == Success || t == Warning || t == Critical
  }

  /** Position of a traffic-light tier on the good-to-bad scale. */
  function Badness(t: Tone): nat
    requires IsTrafficLight(t)
  {
    match t
    case Success => 0
    case Warning => 1
    case Critical => 2
  }
}
