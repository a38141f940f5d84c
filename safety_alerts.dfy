/**
 * The safety-alert panel's logic: which alerts are relevant to a station,
 * which of them are active and high priority, how a severity is shown and
 * how long ago an alert started.
 */
module SafetyAlerts {
  import opened Wrappers
  import opened JsText
  import opened Seqs
  import opened MtaTypes
  import FlaskSafety

  /**
   * The `relevantAlerts` test. `stationId` is tested for truthiness (the
   * empty id counts as absent); an array, even an empty one, is truthy.
   */
  predicate IsRelevant(alert: ServiceAlert, stationId: Option<string>, lineIcons: Option<seq<string>>) {
    if StartsWith(alert.id, FlaskSafety.FlaskIdPrefix) then true
    else if (stationId.None? || stationId.value == "") && lineIcons.None? then true
    else if lineIcons.Some? && |lineIcons.value| > 0 then SharesElement(alert.affectedLines, lineIcons.value)
    else true
  }

  /**
   * What the chain of tests amounts to: a Flask alert is always relevant;
   * any other alert is relevant iff there are no line icons, the icon list
   * is empty, or the alert affects one of the icons' lines. The station id
   * plays no part.
   */
  lemma RelevanceCharacterised(alert: ServiceAlert, stationId: Option<string>, lineIcons: Option<seq<string>>)
    ensures IsRelevant(alert, stationId, lineIcons) <==>
              || StartsWith(alert.id, FlaskSafety.FlaskIdPrefix)
              || lineIcons.None?
              || lineIcons.value == []
              || exists i :: 0 <= i < |alert.affectedLines| && alert.affectedLines[i] in lineIcons.value
    ensures IsRelevant(alert, stationId, lineIcons) == IsRelevant(alert, None, lineIcons)
  {
  }

  /** `[...flaskAlerts, ...serviceAlerts].filter(relevant)`. */
  function RelevantAlerts(flaskAlerts: seq<ServiceAlert>, serviceAlerts: seq<ServiceAlert>,
                          stationId: Option<string>, lineIcons: Option<seq<string>>): (r: seq<ServiceAlert>)
    ensures forall i :: 0 <= i < |r| ==> r[i] in flaskAlerts + serviceAlerts && IsRelevant(r[i], stationId, lineIcons)
  {
    Filter(a => IsRelevant(a, stationId, lineIcons), flaskAlerts + serviceAlerts)
  }

  /**
   * The relevant list keeps every alert the Flask service produced, in
   * front and in order, followed by the relevant service alerts in order.
   */
  lemma FlaskAlertsAlwaysShown(stationName: string, reply: Option<FlaskSafety.FlaskResponse>, startTime: string,
                               serviceAlerts: seq<ServiceAlert>, stationId: Option<string>, lineIcons: Option<seq<string>>)
    ensures var flaskAlerts := FlaskSafety.GetSafetyAlerts(stationName, reply, startTime);
            RelevantAlerts(flaskAlerts, serviceAlerts, stationId, lineIcons)
              == flaskAlerts + Filter(a => IsRelevant(a, stationId, lineIcons), serviceAlerts)
  {
    var flaskAlerts := FlaskSafety.GetSafetyAlerts(stationName, reply, startTime);
    var p := a => IsRelevant(a, stationId, lineIcons);
    FlaskSafety.SafetyAlertIds(stationName, reply, startTime);
    FilterConcat(p, flaskAlerts, serviceAlerts);
    FilterAll(p, flaskAlerts);
  }

  /** The relevant alerts keep the order of the combined list. */
  lemma RelevantIsSubsequence(flaskAlerts: seq<ServiceAlert>, serviceAlerts: seq<ServiceAlert>,
                              stationId: Option<string>, lineIcons: Option<seq<string>>)
    ensures IsSubsequence(RelevantAlerts(flaskAlerts, serviceAlerts, stationId, lineIcons), flaskAlerts + serviceAlerts)
  {
    FilterIsSubsequence(a => IsRelevant(a, stationId, lineIcons), flaskAlerts + serviceAlerts);
  }

  predicate IsActive(alert: ServiceAlert) { alert.isActive }

  predicate IsHighSeverity(alert: ServiceAlert) { alert.severity == High }

  predicate IsActiveHigh(alert: ServiceAlert) { alert.isActive && alert.severity == High }

  function ActiveAlerts(relevant: seq<ServiceAlert>): (r: seq<ServiceAlert>)
    ensures forall i :: 0 <= i < |r| ==> r[i] in relevant && r[i].isActive
    ensures forall i :: 0 <= i < |relevant| && relevant[i].isActive ==> relevant[i] in r
  {
    Filter(IsActive, relevant)
  }

  function HighPriorityAlerts(active: seq<ServiceAlert>): (r: seq<ServiceAlert>)
    ensures forall i :: 0 <= i < |r| ==> r[i] in active && r[i].severity == High
    ensures forall i :: 0 <= i < |active| && active[i].severity == High ==> active[i] in r
  {
    Filter(IsHighSeverity, active)
  }

  /** High-priority alerts are exactly the relevant alerts that are both active and high, in order. */
  lemma HighPriorityIsActiveHigh(relevant: seq<ServiceAlert>)
    ensures HighPriorityAlerts(ActiveAlerts(relevant)) == Filter(IsActiveHigh, relevant)
  {
    FilterFilter(IsActive, IsHighSeverity, IsActiveHigh, relevant);
  }

  /** Each list is an ordered sublist of the one before it: high within active within relevant. */
  lemma PriorityNesting(relevant: seq<ServiceAlert>)
    ensures IsSubsequence(HighPriorityAlerts(ActiveAlerts(relevant)), ActiveAlerts(relevant))
    ensures IsSubsequence(ActiveAlerts(relevant), relevant)
    ensures IsSubsequence(HighPriorityAlerts(ActiveAlerts(relevant)), relevant)
  {
    var active := ActiveAlerts(relevant);
    var high := HighPriorityAlerts(active);
    FilterIsSubsequence(IsHighSeverity, active);
    FilterIsSubsequence(IsActive, relevant);
    SubsequenceTransitive(high, active, relevant);
  }

  function SeverityColor(severity: Severity): string {
    match severity
    case High => "#FF3B30"
    case Medium => "#FF9500"
    case Low => "#34C759"
  }

  function SeverityIcon(severity: Severity): string {
    match severity
    case High => "warning"
    case Medium => "information-circle"
    case Low => "checkmark-circle"
  }

  function SeverityText(severity: Severity): string {
    match severity
    case High => "High Priority"
    case Medium => "Medium Priority"
    case Low => "Low Priority"
  }

  /** Each of the three presentations tells the severities apart, and none falls back to its default. */
  lemma SeverityPresentationsDistinct(s: Severity, t: Severity)
    requires s != t
    ensures SeverityColor(s) != SeverityColor(t)
    ensures SeverityIcon(s) != SeverityIcon(t)
    ensures SeverityText(s) != SeverityText(t)
    ensures SeverityColor(s) != "#8E8E93" && SeverityIcon(s) != "help-circle" && SeverityText(s) != "Unknown"
  {
  }

  const MillisPerMinute: int := 60 * 1000

  /** How long ago, in the largest whole unit. */
  datatype Ago = JustNow | MinutesAgo(minutes: nat) | HoursAgo(hours: nat) | DaysAgo(days: nat)

  /**
   * The buckets of `formatTimeAgo` for an elapsed time in milliseconds
   * (floor division throughout; a start time in the future is "just now").
   */
  function AgoOf(elapsedMs: int): (a: Ago)
    ensures a == JustNow <==> elapsedMs < 60_000
    ensures a.MinutesAgo? ==> 1 <= a.minutes < 60
                              && a.minutes * 60_000 <= elapsedMs < (a.minutes + 1) * 60_000
    ensures a.HoursAgo? ==> 1 <= a.hours < 24
                            && a.hours * 3_600_000 <= elapsedMs < (a.hours + 1) * 3_600_000
    ensures a.DaysAgo? ==> 1 <= a.days
                           && a.days * 86_400_000 <= elapsedMs < (a.days + 1) * 86_400_000
  {
    var diffMinutes := elapsedMs / 60_000;
    assert diffMinutes * 60_000 <= elapsedMs < diffMinutes * 60_000 + 60_000;
    if diffMinutes < 1 then JustNow
    else if diffMinutes < 60 then MinutesAgo(diffMinutes)
    else
      var diffHours := diffMinutes / 60;
      assert diffHours * 60 <= diffMinutes < diffHours * 60 + 60;
      if diffHours < 24 then HoursAgo(diffHours)
      else
        var diffDays := diffHours / 24;
        assert diffDays * 24 <= diffHours < diffDays * 24 + 24;
        DaysAgo(diffDays)
  }

  function RenderAgo(a: Ago): (shown: string)
    ensures |shown| > 0
    ensures !a.JustNow? ==> '0' <= shown[0] <= '9'
  {
    match a
    case JustNow => "Just now"
    case MinutesAgo(m) => NatToString(m) + "m ago"
    case HoursAgo(h) => NatToString(h) + "h ago"
    case DaysAgo(d) => NatToString(d) + "d ago"
  }

  /** Different buckets, or different counts, never render alike: the label determines the bucket. */
  lemma RenderAgoInjective(a: Ago, b: Ago)
    requires RenderAgo(a) == RenderAgo(b)
    ensures a == b
  {
    if !a.JustNow? && !b.JustNow? {
      var (n, u) := NumberAndUnit(a);
      var (m, v) := NumberAndUnit(b);
      SplitAtUnit(NatToString(n), u, NatToString(m), v);
      NatToStringInjective(n, m);
    }
  }

  /** The count and the unit letter of a non-trivial bucket. */
  function NumberAndUnit(a: Ago): (nu: (nat, char))
    requires !a.JustNow?
    ensures RenderAgo(a) == NatToString(nu.0) + [nu.1] + " ago"
  {
    match a
    case MinutesAgo(m) => (m, 'm')
    case HoursAgo(h) => (h, 'h')
    case DaysAgo(d) => (d, 'd')
  }

  /** A run of digits followed by a non-digit splits in one way only. */
  lemma SplitAtUnit(x: string, u: char, y: string, v: char)
    requires forall i :: 0 <= i < |x| ==> '0' <= x[i] <= '9'
    requires forall i :: 0 <= i < |y| ==> '0' <= y[i] <= '9'
    requires !('0' <= u <= '9') && !('0' <= v <= '9')
    requires x + [u] + " ago" == y + [v] + " ago"
    ensures x == y && u == v
  {
    var s := x + [u] + " ago";
    assert |x| == |y|;
    assert x == s[..|x|];
    assert y == (y + [v] + " ago")[..|y|];
    assert s[|x|] == u;
    assert (y + [v] + " ago")[|y|] == v;
  }

  /** `formatTimeAgo`, given the time elapsed since the alert started. */
  function FormatTimeAgo(elapsedMs: int): (shown: string)
    ensures shown == "Just now" <==> elapsedMs < 60_000
  {
    RenderAgo(AgoOf(elapsedMs))
  }
}
