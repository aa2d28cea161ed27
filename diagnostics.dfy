/** The "Additional Details" block of a new ticket, built from the monitoring
    service's answers for the test: today's uptime and the alert history. */
module Diagnostics {
  import opened Optional
  import opened Seqs
  import opened Decimal

  /** One entry of the alert history: its status and when it fired (whole seconds). */
  datatype Alert = Alert(status: string, triggeredAt: int)

  /** The look-back window of the down-alert count. */
  const TwoWeeks: nat := 14 * 86400

  predicate IsDownAlert(a: Alert)
  {
    a.status == "down"
  }

  function NewerThan(cutoff: int): Alert -> bool
  {
    (a: Alert) => a.triggeredAt > cutoff
  }

  /** The down alerts, in the order the monitoring service lists them. */
  function DownAlerts(alerts: seq<Alert>): seq<Alert>
  {
    Filter(alerts, IsDownAlert)
  }

  /** The down alerts that fired less than two weeks before `now`. */
  function RecentDownAlerts(alerts: seq<Alert>, now: int): seq<Alert>
  {
    Filter(DownAlerts(alerts), NewerThan(now - TwoWeeks))
  }

  /** The previous outage: the second down alert (the first is the one being handled). */
  function LastDowntime(alerts: seq<Alert>): Option<int>
  {
    var down := DownAlerts(alerts);
    if |down| > 1 then Some(down[1].triggeredAt) else None
  }

  /** The last downtime is the time of the down alert that has exactly one down
      alert before it in the history, and there is one exactly when two down
      alerts exist. */
  lemma {:induction false} LastDowntimeIsSecondDownAlert(alerts: seq<Alert>, t: int)
    ensures LastDowntime(alerts) == Some(t) <==>
      exists j :: 0 <= j < |alerts| && IsDownAlert(alerts[j]) && |DownAlerts(alerts[..j])| == 1
                  && alerts[j].triggeredAt == t
  {
    if LastDowntime(alerts) == Some(t) {
      FilterSource(alerts, IsDownAlert, 1);
    }
    if exists j :: 0 <= j < |alerts| && IsDownAlert(alerts[j]) && |DownAlerts(alerts[..j])| == 1
                   && alerts[j].triggeredAt == t {
      var j :| 0 <= j < |alerts| && IsDownAlert(alerts[j]) && |DownAlerts(alerts[..j])| == 1
               && alerts[j].triggeredAt == t;
      FilterPick(alerts, IsDownAlert, j);
    }
  }

  /** The two-week count never grows as time passes, and never exceeds the number of down alerts. */
  lemma RecentCountNonIncreasing(alerts: seq<Alert>, earlier: int, later: int)
    requires earlier <= later
    ensures |RecentDownAlerts(alerts, later)| <= |RecentDownAlerts(alerts, earlier)| <= |DownAlerts(alerts)|
  {
    FilterCountMono(DownAlerts(alerts), NewerThan(later - TwoWeeks), NewerThan(earlier - TwoWeeks));
  }

  // ---------------------------------------------------------------------
  // The notes block

  const HeaderLine: string := "Additional Details \n"
  const RuleLine: string := "-----------------------\n"
  const UptimeLabel: string := "Today's Uptime: "
  const UptimeEnd: string := "% \n"
  const LastDowntimeLabel: string := "Last Downtime: "
  const LineEnd: string := " \n"
  const CountLabel: string := "Total Down Alerts (past 2 weeks): "

  function UptimeSection(uptime: Option<string>): string
  {
    match uptime
    case None => ""
    case Some(u) => HeaderLine + RuleLine + UptimeLabel + u + UptimeEnd
  }

  function LastDowntimeLine(alerts: seq<Alert>, renderTime: int -> string): string
  {
    match LastDowntime(alerts)
    case None => ""
    case Some(t) => LastDowntimeLabel + renderTime(t) + LineEnd
  }

  function RecentCountLine(alerts: seq<Alert>, now: int): string
  {
    var n := |RecentDownAlerts(alerts, now)|;
    if n > 0 then CountLabel + NatToString(n) else ""
  }

  /** The notes: the uptime section when the uptime was fetched, then, when the
      history was fetched, the last downtime and the two-week count lines. */
  function DiagnosticNotes(uptime: Option<string>, alerts: Option<seq<Alert>>, now: int,
                           renderTime: int -> string): string
  {
    match alerts
    case None => UptimeSection(uptime)
    case Some(a) => UptimeSection(uptime) + LastDowntimeLine(a, renderTime) + RecentCountLine(a, now)
  }

  /** The count line is there exactly when a down alert fired in the last two
      weeks, and the number it shows reads back as the count. */
  lemma RecentCountLineReports(alerts: seq<Alert>, now: int)
    ensures RecentCountLine(alerts, now) == "" <==> RecentDownAlerts(alerts, now) == []
    ensures RecentDownAlerts(alerts, now) != [] ==>
      RecentCountLine(alerts, now)[..|CountLabel|] == CountLabel &&
      ParseNat(RecentCountLine(alerts, now)[|CountLabel|..]) == Some(|RecentDownAlerts(alerts, now)|)
  {
    var n := |RecentDownAlerts(alerts, now)|;
    if n > 0 {
      var line := RecentCountLine(alerts, now);
      assert line[|CountLabel|..] == NatToString(n);
      ParseNatToString(n);
    }
  }

  /** The notes are empty exactly when nothing was fetched that produces a line. */
  lemma NotesEmptyIff(uptime: Option<string>, alerts: Option<seq<Alert>>, now: int, renderTime: int -> string)
    ensures DiagnosticNotes(uptime, alerts, now, renderTime) == "" <==>
      uptime.None? && (alerts.None? || (|DownAlerts(alerts.value)| <= 1 && RecentDownAlerts(alerts.value, now) == []))
  {
    if alerts.Some? {
      RecentCountLineReports(alerts.value, now);
    }
  }

  /** The handler's step-by-step assembly of the notes, one `+=` per line. */
  method BuildNotes(uptime: Option<string>, alerts: Option<seq<Alert>>, now: int, renderTime: int -> string)
    returns (notes: string)
    ensures notes == DiagnosticNotes(uptime, alerts, now, renderTime)
  {
    notes := "";
    if uptime.Some? {
      notes := HeaderLine;
      notes := notes + RuleLine;
      notes := notes + UptimeLabel + uptime.value + UptimeEnd;
    }
    assert notes == UptimeSection(uptime);
    ghost var upto := notes;
    if alerts.Some? {
      var downAlerts := DownAlerts(alerts.value);
      var recentDownAlerts := Filter(downAlerts, NewerThan(now - TwoWeeks));
      if |downAlerts| > 1 {
        notes := notes + (LastDowntimeLabel + renderTime(downAlerts[1].triggeredAt) + LineEnd);
      }
      ghost var last := LastDowntimeLine(alerts.value, renderTime);
      assert notes == upto + last;
      if |recentDownAlerts| > 0 {
        notes := notes + (CountLabel + NatToString(|recentDownAlerts|));
      }
      assert notes == upto + last + RecentCountLine(alerts.value, now);
    }
  }
}
