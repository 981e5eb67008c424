/**
  The rule-based parts of the language-model service (src/services/llm_service.py): the
  query and response types, the keyword classifier that decides whether a generated reply
  asks for more information or escalates to a human, and `analyze_query`'s handling of an
  empty query, of a failed model call and of the type string the model returns.
*/
module Llm {
  import opened Wrappers
  import opened Text
  import opened PyData

  datatype QueryType =
    | GeneralQuestion | TechnicalIssue | UrgentIssue | AccessRequest
    | FeatureRequest | Feedback | Other

  datatype ResponseType = DirectAnswer | RequestMoreInfo | EscalateToHuman | Acknowledge

  /** The enum's stored value. */
  function QueryTypeValue(q: QueryType): string {
    match q
    case GeneralQuestion => "general_question"
    case TechnicalIssue => "technical_issue"
    case UrgentIssue => "urgent_issue"
    case AccessRequest => "access_request"
    case FeatureRequest => "feature_request"
    case Feedback => "feedback"
    case Other => "other"
  }

  /** `QueryType(s)` with the `ValueError` fallback: the type whose value is `s`, and OTHER
      for every string that is no type's value. */
  function ParseQueryType(s: string): (r: QueryType)
    ensures forall q :: s == QueryTypeValue(q) ==> r == q
    ensures r != Other ==> s == QueryTypeValue(r)
  {
    if s == "general_question" then GeneralQuestion
    else if s == "technical_issue" then TechnicalIssue
    else if s == "urgent_issue" then UrgentIssue
    else if s == "access_request" then AccessRequest
    else if s == "feature_request" then FeatureRequest
    else if s == "feedback" then Feedback
    else Other
  }

  /** Phrases that mark a reply as asking the user for more information. */
  const MoreInfoIndicators: seq<string> := [
    "could you provide", "could you share", "can you tell me more",
    "would you mind sharing", "i need more information", "can you provide",
    "please share", "screenshot", "more details", "additional context"]

  /** Phrases that mark a reply as handing the user over to a person. */
  const EscalateIndicators: seq<string> := [
    "specialist", "team member", "escalate", "connect you with",
    "have someone", "human agent", "support team"]

  /** Some indicator occurs in the text. */
  predicate MentionsAny(text: string, indicators: seq<string>) {
    exists k :: 0 <= k < |indicators| && Contains(text, indicators[k])
  }

  /** `any(indicator in text for indicator in indicators)`, checked in list order. */
  function AnyIndicator(text: string, indicators: seq<string>): (r: bool)
    ensures r <==> MentionsAny(text, indicators)
  {
    if indicators == [] then false
    else if Contains(text, indicators[0]) then true
    else
      var rest := AnyIndicator(text, indicators[1..]);
      assert forall k :: 1 <= k < |indicators| ==> indicators[k] == indicators[1..][k - 1];
      rest
  }

  /** `_classify_response_type`: an urgent query always escalates; otherwise a reply that,
      lower-cased, contains a more-info phrase asks for more information (even if it also
      contains an escalation phrase), one that contains only an escalation phrase escalates,
      and any other reply is a direct answer. */
  function ClassifyResponseType(response: string, queryType: QueryType): (r: ResponseType)
    ensures queryType == UrgentIssue ==> r == EscalateToHuman
    ensures queryType != UrgentIssue ==>
      (r == RequestMoreInfo <==> MentionsAny(Lower(response), MoreInfoIndicators))
    ensures queryType != UrgentIssue ==>
      (r == EscalateToHuman <==> !MentionsAny(Lower(response), MoreInfoIndicators)
                                 && MentionsAny(Lower(response), EscalateIndicators))
    ensures r != Acknowledge
  {
    if queryType == UrgentIssue then EscalateToHuman
    else if AnyIndicator(Lower(response), MoreInfoIndicators) then RequestMoreInfo
    else if AnyIndicator(Lower(response), EscalateIndicators) then EscalateToHuman
    else DirectAnswer
  }

  /** The indicators are matched without regard to case. */
  lemma CapitalisedScreenshotAsksForMore(queryType: QueryType)
    requires queryType != UrgentIssue
    ensures ClassifyResponseType("Send a SCREENSHOT", queryType) == RequestMoreInfo
  {
    var lowered := Lower("Send a SCREENSHOT");
    assert lowered == "send a screenshot";
    assert OccursAt(lowered, MoreInfoIndicators[7], 7);
  }

  /** A reply that both asks for details and mentions a specialist asks for details. */
  lemma MoreInfoOutranksEscalation(queryType: QueryType)
    requires queryType != UrgentIssue
    ensures ClassifyResponseType("a specialist needs more details", queryType) == RequestMoreInfo
  {
    assert Lower("a specialist needs more details") == "a specialist needs more details";
    assert OccursAt("a specialist needs more details", MoreInfoIndicators[8], 19);
  }

  /** What the model's reply holds once parsed from JSON: each field is `None` when its key
      is absent. A value of the wrong kind for `float()` makes the call fail as a whole. */
  datatype ModelReply = ModelReply(
    typeValue: Option<PyValue>,
    extractedInfo: Option<Dict>,
    urgencyScore: Option<real>)

  /** `analyze_query`'s result: the query type, the extracted information and the urgency. */
  datatype Analysis = Analysis(queryType: QueryType, extractedInfo: Dict, urgency: real)

  /** `max(0.0, min(1.0, u))`. */
  function Clamp(u: real): (r: real)
    ensures 0.0 <= r <= 1.0
    ensures 0.0 <= u <= 1.0 ==> r == u
    ensures u < 0.0 ==> r == 0.0
    ensures u > 1.0 ==> r == 1.0
  {
    if u > 1.0 then 1.0 else if u < 0.0 then 0.0 else u
  }

  const Fallback := Analysis(Other, map[], 0.0)

  /** `analyze_query`. An empty query is answered without the model; `reply` is `None` when
      the model call or the JSON parsing raised. A missing type reads as "other", the type
      string is lower-cased and an unknown one is OTHER; a type that is not a string makes
      `.lower()` raise, which the source catches like any other failure. */
  function AnalyzeQuery(query: string, reply: Option<ModelReply>): (r: Analysis)
    ensures query == "" || reply.None? ==> r == Fallback
    ensures 0.0 <= r.urgency <= 1.0
    ensures query != "" && reply.Some? ==>
      var m := reply.value;
      match m.typeValue.GetOr(PyStr("other"))
      case PyStr(name) =>
        && r.queryType == ParseQueryType(Lower(name))
        && r.extractedInfo == m.extractedInfo.GetOr(map[])
        && r.urgency == Clamp(m.urgencyScore.GetOr(0.0))
      case _ => r == Fallback
  {
    if query == "" then Fallback
    else match reply
      case None => Fallback
      case Some(m) =>
        var typeValue := m.typeValue.GetOr(PyStr("other"));
        if !typeValue.PyStr? then Fallback
        else
          var info := m.extractedInfo.GetOr(map[]);
          var urgency := Clamp(m.urgencyScore.GetOr(0.0));
          Analysis(ParseQueryType(Lower(typeValue.s)), info, urgency)
  }

  /** A type string that names no type, in whatever case, yields OTHER; so does a reply
      without a type. */
  lemma UnknownTypeIsOther(query: string, m: ModelReply)
    requires query != ""
    requires m.typeValue.Some? ==> m.typeValue.value.PyStr? && forall q :: Lower(m.typeValue.value.s) != QueryTypeValue(q)
    ensures AnalyzeQuery(query, Some(m)).queryType == Other
  {
    if m.typeValue.None? {
      assert Lower("other") == "other";
    }
  }

  /** A type given in capitals is still recognised. */
  lemma CapitalisedTypeIsRecognised(query: string, m: ModelReply)
    requires query != "" && m.typeValue == Some(PyStr("URGENT_ISSUE"))
    ensures AnalyzeQuery(query, Some(m)).queryType == UrgentIssue
  {
    assert Lower("URGENT_ISSUE") == "urgent_issue";
  }
}
