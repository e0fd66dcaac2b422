/** The alert feed: its three summary tiles, the timestamp label and which
    buttons an alert card offers. */
module AlertCenter {

  import opened Optional
  import opened Counting
  import RelativeTime

  datatype AlertType = CriticalAlert | WarningAlert | InfoAlert

  datatype Alert = Alert(
    id: string,
    patientId: string,
    patientName: string,
    kind: AlertType,
    message: string,
    timestamp: int,
    acknowledged: bool)

  predicate IsUnacknowledged(a: Alert) { !a.acknowledged }
  predicate IsCriticalUnacknowledged(a: Alert) { a.kind == CriticalAlert && !a.acknowledged }
  predicate IsWarningUnacknowledged(a: Alert) { a.kind == WarningAlert && !a.acknowledged }
  predicate IsInfoUnacknowledged(a: Alert) { a.kind == InfoAlert && !a.acknowledged }

  /** The three summary tiles. */
  datatype AlertSummary = AlertSummary(critical: nat, warning: nat, unacknowledged: nat)

  /** The tiles count open critical alerts, open warnings and all open
      alerts; none exceeds the length of the list, so an empty list shows three
      zeros. */
  function Summarize(alerts: seq<Alert>): (s: AlertSummary)
    ensures s.critical <= |alerts| && s.warning <= |alerts| && s.unacknowledged <= |alerts|
    ensures s.critical == 0 <==>
      forall i :: 0 <= i < |alerts| ==> alerts[i].kind == CriticalAlert ==> alerts[i].acknowledged
    ensures s.warning == 0 <==>
      forall i :: 0 <= i < |alerts| ==> alerts[i].kind == WarningAlert ==> alerts[i].acknowledged
    ensures s.unacknowledged == 0 <==> forall i :: 0 <= i < |alerts| ==> alerts[i].acknowledged
    ensures |alerts| == 0 ==> s == AlertSummary(0, 0, 0)
  {
    AlertSummary(
      Count(alerts, IsCriticalUnacknowledged),
      Count(alerts, IsWarningUnacknowledged),
      Count(alerts, IsUnacknowledged))
  }

  /** The tiles of two lists put together are the sums of their tiles. */
  lemma SummarizeAppend(xs: seq<Alert>, ys: seq<Alert>)
    ensures Summarize(xs + ys) == AlertSummary(
      Summarize(xs).critical + Summarize(ys).critical,
      Summarize(xs).warning + Summarize(ys).warning,
      Summarize(xs).unacknowledged + Summarize(ys).unacknowledged)
  {
    CountAppend(xs, ys, IsCriticalUnacknowledged);
    CountAppend(xs, ys, IsWarningUnacknowledged);
    CountAppend(xs, ys, IsUnacknowledged);
  }

  /** A single alert scores one on the open total when it is open, and one on
      the critical or warning tile when it is an open alert of that type. With
      `SummarizeAppend` this fixes every tile of every list. */
  lemma SummarizeOne(a: Alert)
    ensures Summarize([a]) == AlertSummary(
      if a.kind == CriticalAlert && !a.acknowledged then 1 else 0,
      if a.kind == WarningAlert && !a.acknowledged then 1 else 0,
      if a.acknowledged then 0 else 1)
  {
  }

  /** The open total is the sum of the open alerts of each type, so it is at
      least the critical and warning tiles together. */
  lemma OpenTotalBounds(alerts: seq<Alert>)
    ensures var s := Summarize(alerts);
      s.unacknowledged == s.critical + s.warning + Count(alerts, IsInfoUnacknowledged)
      && s.critical + s.warning <= s.unacknowledged <= |alerts|
  {
    UnacknowledgedSplitsByType(alerts);
  }

  /** Every open alert is of exactly one type. */
  lemma {:induction false} UnacknowledgedSplitsByType(alerts: seq<Alert>)
    ensures Count(alerts, IsUnacknowledged) ==
      Count(alerts, IsCriticalUnacknowledged) + Count(alerts, IsWarningUnacknowledged)
      + Count(alerts, IsInfoUnacknowledged)
  {
    if |alerts| > 0 {
      assert forall i :: 0 <= i < |alerts[1..]| ==> alerts[1..][i] == alerts[i + 1];
      UnacknowledgedSplitsByType(alerts[1..]);
    }
  }

  /** The timestamp label of an alert card, for the clock reading `now`; the
      same rule as the device list's last-sync column. */
  function FormatTimestamp(now: int, timestamp: int): (text: string)
    ensures text == RelativeTime.JustNowText <==> now - timestamp < RelativeTime.MsPerMinute
    ensures RelativeTime.ParseLabel(text) == Some(RelativeTime.SinceLabel(now, timestamp))
    ensures forall t :: RelativeTime.ParseLabel(t) == Some(RelativeTime.SinceLabel(now, timestamp)) ==> t == text
  {
    var since := RelativeTime.SinceLabel(now, timestamp);
    RelativeTime.RenderRoundTrip(since);
    assert forall t :: RelativeTime.ParseLabel(t) == Some(since) ==> t == RelativeTime.Render(since) by {
      forall t | RelativeTime.ParseLabel(t) == Some(since)
        ensures t == RelativeTime.Render(since)
      {
        RelativeTime.ParseLabelOnlyRendered(t, since);
      }
    }
    RelativeTime.Render(since)
  }

  /** The buttons an alert card can carry: the action row, and the
      "Immediate Action Required" panel of an open critical alert. */
  datatype Action = Call | Email | Acknowledge | Message | EmergencyProtocol | Escalate

  /** An open alert offers Acknowledge; an open critical alert also Call and
      Email in the action row and the emergency-protocol and escalate buttons
      in its panel; a handled alert offers only the message button. */
  function OfferedActions(a: Alert): (actions: set<Action>)
    ensures Message in actions
    ensures Acknowledge in actions <==> !a.acknowledged
    ensures Call in actions <==> a.kind == CriticalAlert && !a.acknowledged
    ensures Email in actions <==> Call in actions
    ensures EmergencyProtocol in actions <==> Call in actions
    ensures Escalate in actions <==> Call in actions
    ensures Call in actions ==> Acknowledge in actions
  {
    var urgent: set<Action> := if a.kind == CriticalAlert then {Call, Email, EmergencyProtocol, Escalate} else {};
    (if a.acknowledged then {} else urgent + {Acknowledge}) + {Message}
  }

  /** Pressing the Acknowledge button reports the card's own id. */
  function AcknowledgeRequest(a: Alert): (id: Option<string>)
    ensures id.Some? <==> Acknowledge in OfferedActions(a)
    ensures id.Some? ==> id.value == a.id
  {
    if a.acknowledged then None else Some(a.id)
  }
}
