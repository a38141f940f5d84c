/**
 * The service-alert panel's logic: the line-overlap filter, the severity
 * presentation, the relative time and the "Good Service" status.
 */
module ServiceAlerts {
  import opened Wrappers
  import opened JsText
  import opened Seqs
  import opened MtaTypes
  import SafetyAlerts

  /** `filteredAlerts`: with no line list every alert; otherwise those affecting a listed line. */
  function FilteredAlerts(serviceAlerts: seq<ServiceAlert>, affectedLines: Option<seq<string>>): (r: seq<ServiceAlert>)
    ensures affectedLines.None? ==> r == serviceAlerts
    ensures affectedLines.Some? ==>
              && (forall i :: 0 <= i < |r| ==> r[i] in serviceAlerts && SharesElement(r[i].affectedLines, affectedLines.value))
              && (forall i :: 0 <= i < |serviceAlerts| && SharesElement(serviceAlerts[i].affectedLines, affectedLines.value)
                    ==> serviceAlerts[i] in r)
    ensures IsSubsequence(r, serviceAlerts)
  {
    if affectedLines.None? then
      SubsequenceReflexive(serviceAlerts);
      serviceAlerts
    else
      var lines := affectedLines.value;
      FilterIsSubsequence((a: ServiceAlert) => SharesElement(a.affectedLines, lines), serviceAlerts);
      Filter((a: ServiceAlert) => SharesElement(a.affectedLines, lines), serviceAlerts)
  }

  lemma {:induction false} SubsequenceReflexive<T>(s: seq<T>)
    ensures IsSubsequence(s, s)
  {
    if s != [] {
      SubsequenceReflexive(s[1..]);
    }
  }

  /**
   * The two panels disagree on an empty line list: the service panel shows
   * nothing, while the safety panel keeps every alert.
   */
  lemma EmptyLineListContrast(serviceAlerts: seq<ServiceAlert>, stationId: Option<string>)
    ensures FilteredAlerts(serviceAlerts, Some([])) == []
    ensures SafetyAlerts.RelevantAlerts([], serviceAlerts, stationId, Some([])) == serviceAlerts
  {
    assert [] + serviceAlerts == serviceAlerts;
    FilterAll(a => SafetyAlerts.IsRelevant(a, stationId, Some([])), serviceAlerts);
  }

  /** The panel header: "Good Service", or the number of alerts shown. */
  datatype Status = GoodService | AlertCount(count: nat)

  function StatusOf(serviceAlerts: seq<ServiceAlert>, affectedLines: Option<seq<string>>): (st: Status)
    ensures st == GoodService <==> FilteredAlerts(serviceAlerts, affectedLines) == []
    ensures st.AlertCount? ==> st.count == |FilteredAlerts(serviceAlerts, affectedLines)| > 0
  {
    var shown := FilteredAlerts(serviceAlerts, affectedLines);
    if |shown| == 0 then GoodService else AlertCount(|shown|)
  }

  /** With no line list the header counts every alert. */
  lemma StatusWithoutLines(serviceAlerts: seq<ServiceAlert>)
    ensures StatusOf(serviceAlerts, None) == if serviceAlerts == [] then GoodService else AlertCount(|serviceAlerts|)
  {
  }

  datatype Icon = Icon(name: string, color: string)

  function SeverityIcon(severity: Severity): Icon {
    match severity
    case High => Icon("warning", "#FF3B30")
    case Medium => Icon("alert-circle", "#FF9500")
    case Low => Icon("information-circle", "#007AFF")
  }

  function SeverityColor(severity: Severity): string {
    match severity
    case High => "#FF3B30"
    case Medium => "#FF9500"
    case Low => "#007AFF"
  }

  /**
   * Icons and colours tell the severities apart, each icon is drawn in its
   * severity's colour, and the colours agree with the safety panel's except
   * for low severity.
   */
  lemma SeverityPresentation(s: Severity, t: Severity)
    ensures SeverityIcon(s).color == SeverityColor(s)
    ensures s != t ==> SeverityIcon(s).name != SeverityIcon(t).name && SeverityColor(s) != SeverityColor(t)
    ensures SeverityColor(s) == SafetyAlerts.SeverityColor(s) <==> s != Low
  {
  }

  /** How long ago, for the service panel: negative minutes are shown as they are. */
  datatype Elapsed = Minutes(m: int) | Hours(h: nat) | OnDate

  /** The buckets of `formatTime` for the time elapsed since the alert started, in milliseconds. */
  function ElapsedOf(diffMs: int): (e: Elapsed)
    ensures e.Minutes? <==> diffMs < 3_600_000
    ensures e.Minutes? ==> e.m * 60_000 <= diffMs < (e.m + 1) * 60_000
    ensures e.Hours? ==> 1 <= e.h < 24 && e.h * 3_600_000 <= diffMs < (e.h + 1) * 3_600_000
    ensures e.OnDate? <==> diffMs >= 86_400_000
  {
    var diffMins := diffMs / 60_000;
    var diffHours := diffMins / 60;
    assert diffMins * 60_000 <= diffMs < diffMins * 60_000 + 60_000;
    assert diffHours * 60 <= diffMins < diffHours * 60 + 60;
    if diffMins < 60 then Minutes(diffMins)
    else if diffHours < 24 then Hours(diffHours)
    else OnDate
  }

  /** `formatTime`; `localeDate` is the start date as the device's locale writes it. */
  function FormatTime(diffMs: int, localeDate: string): (shown: string)
    ensures diffMs >= 86_400_000 ==> shown == localeDate
  {
    match ElapsedOf(diffMs)
    case Minutes(m) => IntToString(m) + "m ago"
    case Hours(h) => IntToString(h) + "h ago"
    case OnDate => localeDate
  }

  /** From one minute up to a day the two panels word the elapsed time identically. */
  lemma FormatsAgree(diffMs: int, localeDate: string)
    requires 60_000 <= diffMs < 86_400_000
    ensures FormatTime(diffMs, localeDate) == SafetyAlerts.FormatTimeAgo(diffMs)
  {
    var e := ElapsedOf(diffMs);
    var a := SafetyAlerts.AgoOf(diffMs);
    if e.Minutes? {
      assert a.MinutesAgo? && a.minutes == e.m;
    } else {
      assert a.HoursAgo? && a.hours == e.h;
    }
  }
}
