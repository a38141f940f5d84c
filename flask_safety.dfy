/**
 * The Flask safety service: incident reports returned by the research
 * server become service alerts, with a severity chosen by keywords.
 */
module FlaskSafety {
  import opened Wrappers
  import opened JsText
  import opened MtaTypes

  const HighKeywords: seq<string> := ["assault", "robbery", "violent", "weapon"]
  const MediumKeywords: seq<string> := ["theft", "harassment", "disturbance"]

  /** Some keyword occurs in `desc`. */
  predicate MentionsAny(desc: string, keywords: seq<string>) {
    exists i :: 0 <= i < |keywords| && Includes(desc, keywords[i])
  }

  /** The keyword lists spelled out, one `includes` test per entry. */
  lemma KeywordLists(desc: string)
    ensures MentionsAny(desc, HighKeywords) <==>
              Includes(desc, "assault") || Includes(desc, "robbery") || Includes(desc, "violent")
              || Includes(desc, "weapon")
    ensures MentionsAny(desc, MediumKeywords) <==>
              Includes(desc, "theft") || Includes(desc, "harassment") || Includes(desc, "disturbance")
  {
    assert HighKeywords[0] == "assault" && HighKeywords[1] == "robbery";
    assert HighKeywords[2] == "violent" && HighKeywords[3] == "weapon";
    assert MediumKeywords[0] == "theft" && MediumKeywords[1] == "harassment";
    assert MediumKeywords[2] == "disturbance";
  }

  /**
   * `determineSeverity`: a high keyword anywhere in the lower-cased
   * description wins over any medium keyword; otherwise a medium keyword
   * gives medium, and anything else low.
   */
  function DetermineSeverity(description: string): (sev: Severity)
    ensures sev == High <==> MentionsAny(Lower(description), HighKeywords)
    ensures sev == Medium <==> !MentionsAny(Lower(description), HighKeywords)
                               && MentionsAny(Lower(description), MediumKeywords)
    ensures sev == Low <==> !MentionsAny(Lower(description), HighKeywords)
                            && !MentionsAny(Lower(description), MediumKeywords)
  {
    var desc := Lower(description);
    KeywordLists(desc);
    if Includes(desc, "assault") || Includes(desc, "robbery") || Includes(desc, "violent")
       || Includes(desc, "weapon") then
      High
    else if Includes(desc, "theft") || Includes(desc, "harassment") || Includes(desc, "disturbance") then
      Medium
    else
      Low
  }

  /**
   * Any spelling of a high keyword, in any letter case, anywhere in the
   * description makes the incident high, whatever else it mentions.
   */
  lemma HighKeywordAnywhere(before: string, word: string, after: string, k: nat)
    requires k < |HighKeywords| && Lower(word) == HighKeywords[k]
    ensures DetermineSeverity(before + word + after) == High
  {
    LowerConcat(before + word, after);
    LowerConcat(before, word);
    IncludesMiddle(Lower(before), HighKeywords[k], Lower(after));
    assert Lower(before + word + after) == Lower(before) + HighKeywords[k] + Lower(after);
  }

  /** A medium keyword in any letter case makes the incident medium unless a high keyword also occurs. */
  lemma MediumKeywordAnywhere(before: string, word: string, after: string, k: nat)
    requires k < |MediumKeywords| && Lower(word) == MediumKeywords[k]
    requires !MentionsAny(Lower(before + word + after), HighKeywords)
    ensures DetermineSeverity(before + word + after) == Medium
  {
    LowerConcat(before + word, after);
    LowerConcat(before, word);
    IncludesMiddle(Lower(before), MediumKeywords[k], Lower(after));
    assert Lower(before + word + after) == Lower(before) + MediumKeywords[k] + Lower(after);
  }

  datatype Incident = Incident(description: string, time: string, station: string)

  /** The server's JSON body; `response` may be missing. */
  datatype FlaskResponse = FlaskResponse(response: Option<seq<Incident>>)

  const FlaskIdPrefix: string := "flask-"

  function AlertId(stationName: string, index: nat): string {
    FlaskIdPrefix + stationName + "-" + NatToString(index)
  }

  /** The alert built for the incident at `index`. */
  function IncidentAlert(stationName: string, incident: Incident, index: nat, startTime: string): (a: ServiceAlert)
    ensures a.id == AlertId(stationName, index)
    ensures a.title == "Safety Incident Report"
    ensures a.description == incident.description + " at " + incident.station + " (" + incident.time + ")"
    ensures a.severity == DetermineSeverity(incident.description)
    ensures a.affectedLines == [] && a.isActive && a.endTime.None?
    ensures a.startTime == startTime
  {
    ServiceAlert(
      AlertId(stationName, index),
      "Safety Incident Report",
      incident.description + " at " + incident.station + " (" + incident.time + ")",
      DetermineSeverity(incident.description),
      [],
      startTime,
      None,
      true)
  }

  /**
   * `getSafetyAlerts`: `reply` is the parsed body of a successful request
   * (`None` when the request failed or the status was not ok); `startTime`
   * is the request time in ISO form.
   */
  function GetSafetyAlerts(stationName: string, reply: Option<FlaskResponse>, startTime: string): (alerts: seq<ServiceAlert>)
    ensures reply.None? || reply.value.response.None? ==> alerts == []
    ensures reply.Some? && reply.value.response.Some? ==>
              var incidents := reply.value.response.value;
              |alerts| == |incidents|
              && forall i :: 0 <= i < |incidents| ==> alerts[i] == IncidentAlert(stationName, incidents[i], i, startTime)
  {
    if reply.None? || reply.value.response.None? then []
    else
      var incidents := reply.value.response.value;
      seq(|incidents|, i requires 0 <= i < |incidents| => IncidentAlert(stationName, incidents[i], i, startTime))
  }

  /** Alert ids of different incidents differ, since their decimal indices differ. */
  lemma AlertIdsDistinct(stationName: string, i: nat, j: nat)
    requires i != j
    ensures AlertId(stationName, i) != AlertId(stationName, j)
  {
    var prefix := FlaskIdPrefix + stationName + "-";
    if AlertId(stationName, i) == AlertId(stationName, j) {
      assert AlertId(stationName, i)[|prefix|..] == NatToString(i);
      assert AlertId(stationName, j)[|prefix|..] == NatToString(j);
      NatToStringInjective(i, j);
    }
  }

  /** Every alert of one reply is marked as a Flask alert, and no two share an id. */
  lemma SafetyAlertIds(stationName: string, reply: Option<FlaskResponse>, startTime: string)
    ensures var alerts := GetSafetyAlerts(stationName, reply, startTime);
            && (forall i :: 0 <= i < |alerts| ==> StartsWith(alerts[i].id, FlaskIdPrefix))
            && (forall i, j :: 0 <= i < j < |alerts| ==> alerts[i].id != alerts[j].id)
  {
    var alerts := GetSafetyAlerts(stationName, reply, startTime);
    forall i | 0 <= i < |alerts| ensures StartsWith(alerts[i].id, FlaskIdPrefix) {
      assert alerts[i].id[..|FlaskIdPrefix|] == FlaskIdPrefix;
    }
    forall i, j | 0 <= i < j < |alerts| ensures alerts[i].id != alerts[j].id {
      AlertIdsDistinct(stationName, i, j);
    }
  }
}
