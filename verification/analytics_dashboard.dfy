/** The analytics page: the status distribution, the population averages of
    the vitals, and the colour rules of the insight cards. */
module AnalyticsDashboard {

  import opened Optional
  import opened Counting
  import opened Tones
  import Health

  predicate IsStable(p: Health.Patient) { p.status == Health.Stable }
  predicate IsWarning(p: Health.Patient) { p.status == Health.Warning }
  predicate IsCritical(p: Health.Patient) { p.status == Health.Critical }

  /** The distribution card: each count is the number of patients labelled
      with that status. */
  datatype Distribution = Distribution(stable: nat, warning: nat, critical: nat)

  function StatusDistribution(patients: seq<Health.Patient>): (d: Distribution)
    ensures d.stable <= |patients| && d.warning <= |patients| && d.critical <= |patients|
    ensures d.stable == 0 <==> forall i :: 0 <= i < |patients| ==> patients[i].status != Health.Stable
    ensures d.warning == 0 <==> forall i :: 0 <= i < |patients| ==> patients[i].status != Health.Warning
    ensures d.critical == 0 <==> forall i :: 0 <= i < |patients| ==> patients[i].status != Health.Critical
  {
    Distribution(Count(patients, IsStable), Count(patients, IsWarning), Count(patients, IsCritical))
  }

  /** The distribution of two populations put together is the sum of their
      distributions. */
  lemma DistributionAppend(ps: seq<Health.Patient>, qs: seq<Health.Patient>)
    ensures StatusDistribution(ps + qs) == Distribution(
      StatusDistribution(ps).stable + StatusDistribution(qs).stable,
      StatusDistribution(ps).warning + StatusDistribution(qs).warning,
      StatusDistribution(ps).critical + StatusDistribution(qs).critical)
  {
    CountAppend(ps, qs, IsStable);
    CountAppend(ps, qs, IsWarning);
    CountAppend(ps, qs, IsCritical);
  }

  /** A single patient counts once, under its own label. With
      `DistributionAppend` this fixes every count of every population. */
  lemma DistributionOne(p: Health.Patient)
    ensures StatusDistribution([p]) == Distribution(
      if p.status == Health.Stable then 1 else 0,
      if p.status == Health.Warning then 1 else 0,
      if p.status == Health.Critical then 1 else 0)
  {
  }

  /** Every patient carries exactly one of the three labels, so the three
      counts add up to the population. */
  lemma DistributionCoversPopulation(patients: seq<Health.Patient>)
    ensures var d := StatusDistribution(patients);
      d.stable + d.warning + d.critical == |patients|
  {
    CountPartition3(patients, IsStable, IsWarning, IsCritical);
  }

  // ---------------------------------------------------------------------
  // Averages
  // ---------------------------------------------------------------------

  function Sum(xs: seq<real>): real
  {
    if |xs| == 0 then 0.0 else xs[0] + Sum(xs[1..])
  }

  /** A sum of values each between `lo` and `hi` lies between `|xs|·lo` and `|xs|·hi`. */
  lemma {:induction false} SumBounds(xs: seq<real>, lo: real, hi: real)
    requires forall i :: 0 <= i < |xs| ==> lo <= xs[i] <= hi
    ensures |xs| as real * lo <= Sum(xs) <= |xs| as real * hi
  {
    if |xs| > 0 {
      assert forall i :: 0 <= i < |xs[1..]| ==> xs[1..][i] == xs[i + 1];
      SumBounds(xs[1..], lo, hi);
    }
  }

  /** The reduce-then-divide average. The source divides by the length without
      a guard, so an empty list gives NaN, modelled as `None`. Otherwise the
      mean times the count is the sum. */
  function Mean(xs: seq<real>): (m: Option<real>)
    ensures m.None? <==> |xs| == 0
    ensures m.Some? ==> m.value * |xs| as real == Sum(xs)
  {
    if |xs| == 0 then None else Some(Sum(xs) / |xs| as real)
  }

  /** The mean of values within a range lies within that range. */
  lemma MeanWithinRange(xs: seq<real>, lo: real, hi: real)
    requires |xs| > 0
    requires forall i :: 0 <= i < |xs| ==> lo <= xs[i] <= hi
    ensures Mean(xs).Some? && lo <= Mean(xs).value <= hi
  {
    SumBounds(xs, lo, hi);
    var n := |xs| as real;
    var m := Mean(xs).value;
    assert m * n == Sum(xs);
    assert n * lo <= m * n <= n * hi;
  }

  function HeartRates(ps: seq<Health.Patient>): (xs: seq<real>)
    ensures |xs| == |ps|
    ensures forall i :: 0 <= i < |ps| ==> xs[i] == ps[i].vitals.heartRate
  {
    seq(|ps|, i requires 0 <= i < |ps| => ps[i].vitals.heartRate)
  }

  function Systolics(ps: seq<Health.Patient>): (xs: seq<real>)
    ensures |xs| == |ps|
    ensures forall i :: 0 <= i < |ps| ==> xs[i] == ps[i].vitals.bloodPressure.systolic
  {
    seq(|ps|, i requires 0 <= i < |ps| => ps[i].vitals.bloodPressure.systolic)
  }

  function Temperatures(ps: seq<Health.Patient>): (xs: seq<real>)
    ensures |xs| == |ps|
    ensures forall i :: 0 <= i < |ps| ==> xs[i] == ps[i].vitals.temperature
  {
    seq(|ps|, i requires 0 <= i < |ps| => ps[i].vitals.temperature)
  }

  function OxygenSaturations(ps: seq<Health.Patient>): (xs: seq<real>)
    ensures |xs| == |ps|
    ensures forall i :: 0 <= i < |ps| ==> xs[i] == ps[i].vitals.oxygenSaturation
  {
    seq(|ps|, i requires 0 <= i < |ps| => ps[i].vitals.oxygenSaturation)
  }

  /** The four population averages. */
  datatype Averages = Averages(
    heartRate: Option<real>,
    systolic: Option<real>,
    temperature: Option<real>,
    oxygenSaturation: Option<real>)

  /** Each average is the sum of one reading over the population divided by
      its size, and is undefined (NaN) exactly when there are no patients. */
  function PopulationAverages(ps: seq<Health.Patient>): (a: Averages)
    ensures a.heartRate.None? <==> |ps| == 0
    ensures a.systolic.None? <==> |ps| == 0
    ensures a.temperature.None? <==> |ps| == 0
    ensures a.oxygenSaturation.None? <==> |ps| == 0
    ensures |ps| > 0 ==> a.heartRate.value * |ps| as real == Sum(HeartRates(ps))
    ensures |ps| > 0 ==> a.systolic.value * |ps| as real == Sum(Systolics(ps))
    ensures |ps| > 0 ==> a.temperature.value * |ps| as real == Sum(Temperatures(ps))
    ensures |ps| > 0 ==> a.oxygenSaturation.value * |ps| as real == Sum(OxygenSaturations(ps))
  {
    Averages(Mean(HeartRates(ps)), Mean(Systolics(ps)), Mean(Temperatures(ps)), Mean(OxygenSaturations(ps)))
  }

  /** Two populations that agree on every systolic value have the same
      systolic average, whatever their diastolic values. */
  lemma SystolicAverageIgnoresDiastolic(ps: seq<Health.Patient>, qs: seq<Health.Patient>)
    requires |ps| == |qs|
    requires forall i :: 0 <= i < |ps| ==>
      ps[i].vitals.bloodPressure.systolic == qs[i].vitals.bloodPressure.systolic
    ensures PopulationAverages(ps).systolic == PopulationAverages(qs).systolic
  {
    assert Systolics(ps) == Systolics(qs);
  }

  lemma MeanSingleton(x: real)
    ensures Mean([x]) == Some(x)
  {
    assert [x][1..] == [];
    assert Sum([x]) == x;
    var xs := [x];
    assert |xs| as real == 1.0;
    assert Mean(xs).Some?;
    assert Mean(xs).value == Sum(xs) / 1.0;
    assert Sum(xs) / 1.0 == x;
  }

  /** A one-patient population averages to that patient's own readings. */
  lemma SinglePatientAverages(p: Health.Patient)
    ensures PopulationAverages([p]) == Averages(
      Some(p.vitals.heartRate), Some(p.vitals.bloodPressure.systolic),
      Some(p.vitals.temperature), Some(p.vitals.oxygenSaturation))
  {
    MeanSingleton(p.vitals.heartRate);
    MeanSingleton(p.vitals.bloodPressure.systolic);
    MeanSingleton(p.vitals.temperature);
    MeanSingleton(p.vitals.oxygenSaturation);
    assert HeartRates([p]) == [p.vitals.heartRate];
    assert Systolics([p]) == [p.vitals.bloodPressure.systolic];
    assert Temperatures([p]) == [p.vitals.temperature];
    assert OxygenSaturations([p]) == [p.vitals.oxygenSaturation];
  }

  /** The heart-rate average lies between any bounds that hold for every
      patient's heart rate. */
  lemma HeartRateAverageWithinReadings(ps: seq<Health.Patient>, lo: real, hi: real)
    requires |ps| > 0
    requires forall i :: 0 <= i < |ps| ==> lo <= ps[i].vitals.heartRate <= hi
    ensures PopulationAverages(ps).heartRate.Some?
    ensures lo <= PopulationAverages(ps).heartRate.value <= hi
  {
    MeanWithinRange(HeartRates(ps), lo, hi);
  }

  // ---------------------------------------------------------------------
  // Insight cards
  // ---------------------------------------------------------------------

  /** The confidence bar: success above 0.8, warning above 0.6, critical
      otherwise. */
  function ConfidenceTone(confidence: real): (t: Tone)
    ensures IsTrafficLight(t)
    ensures t == Success <==> confidence > 0.8
    ensures t == Warning <==> 0.6 < confidence <= 0.8
    ensures t == Critical <==> confidence <= 0.6
  {
    if confidence > 0.8 then Success
    else if confidence > 0.6 then Warning
    else Critical
  }

  /** More confidence never gives a worse bar colour. */
  lemma ConfidenceToneMonotone(low: real, high: real)
    requires low <= high
    ensures Badness(ConfidenceTone(high)) <= Badness(ConfidenceTone(low))
  {
  }

  const HighRisk: string := "high"
  const MediumRisk: string := "medium"
  const LowRisk: string := "low"

  /** The risk colour: high is critical, medium warning, low the primary
      colour, and any other label muted. The three known labels get three
      different colours. */
  function RiskTone(risk: string): (t: Tone)
    ensures t == Critical <==> risk == HighRisk
    ensures t == Warning <==> risk == MediumRisk
    ensures t == Primary <==> risk == LowRisk
    ensures t == Muted <==> risk != HighRisk && risk != MediumRisk && risk != LowRisk
    ensures t != Success
  {
    if risk == "high" then Critical
    else if risk == "medium" then Warning
    else if risk == "low" then Primary
    else Muted
  }
}
