/**
  The pure decisions of the bot's message handling (src/app.py): stripping the bot mention
  from a channel message, the ticket priority derived from the urgency score with the boost
  for VIP users, the ticket title, the expertise areas a hunt looks for, and whether a
  message starts a hunt at all.
*/
module App {
  import opened Wrappers
  import opened Text
  import opened PyData
  import opened Users
  import opened Tickets
  import opened Llm

  /** `text.split(">", 1)[1].strip() if ">" in text else text`: with a '>' the query is the
      part of the text after the first '>', stripped of surrounding whitespace; otherwise the
      text as is. */
  function StripMention(text: string): (r: string)
    ensures '>' !in text ==> r == text
    ensures '>' in text ==> Stripped(text[FirstIndex(text, '>') + 1..], r)
  {
    if '>' in text then
      var rest := text[FirstIndex(text, '>') + 1..];
      Strip(rest)
    else text
  }

  /** Only the first '>' separates: whatever follows it, later '>' included, is the query. */
  lemma MentionEndsAtFirstSeparator(prefix: string, rest: string)
    requires '>' !in prefix
    ensures StripMention(prefix + ">" + rest) == Strip(rest)
  {
    var text := prefix + ">" + rest;
    var n := |prefix|;
    assert text[..n] == prefix;
    assert text[n] == '>';
    assert text[n + 1..] == rest;
  }

  /** An order on priorities: LOW below MEDIUM below HIGH. */
  function PriorityRank(p: Priority): nat {
    match p
    case Low => 0
    case Medium => 1
    case High => 2
  }

  /** The priority the urgency score alone gives. */
  function BasePriority(urgency: real): (p: Priority)
    ensures p == High <==> urgency > 0.7
    ensures p == Low <==> urgency <= 0.3
  {
    if urgency > 0.7 then High else if urgency > 0.3 then Medium else Low
  }

  /** The priority of `create_ticket`: the score's priority, raised one step for a VIP
      unless already HIGH. */
  function DerivePriority(urgency: real, level: UserLevel): (p: Priority)
    ensures level != Vip ==> p == BasePriority(urgency)
    ensures level == Vip ==> PriorityRank(p) == if BasePriority(urgency) == High then 2 else PriorityRank(BasePriority(urgency)) + 1
    ensures p == High <==> urgency > 0.7 || (level == Vip && urgency > 0.3)
    ensures p == Low <==> urgency <= 0.3 && level != Vip
  {
    var priority := BasePriority(urgency);
    if level == Vip && priority != High then
      (if priority == Low then Medium else High)
    else priority
  }

  /** For a fixed user level, a higher urgency never gives a lower priority. */
  lemma PriorityMonotone(u1: real, u2: real, level: UserLevel)
    requires u1 <= u2
    ensures PriorityRank(DerivePriority(u1, level)) <= PriorityRank(DerivePriority(u2, level))
  {
  }

  /** The VIP boost never lowers a priority. */
  lemma VipNeverLower(urgency: real)
    ensures PriorityRank(DerivePriority(urgency, Vip)) >= PriorityRank(DerivePriority(urgency, Regular))
  {
  }

  /** A ticket counts as urgent exactly when the score exceeds 0.7, or exceeds 0.3 for a VIP. */
  lemma UrgentTicketIff(urgency: real, level: UserLevel)
    ensures IsUrgentPriority(DerivePriority(urgency, level)) <==> urgency > 0.7 || (level == Vip && urgency > 0.3)
  {
  }

  /** `min(n, |s|)`: how much of `s` the slice `s[:n]` keeps. */
  function Keep(s: string, n: nat): nat {
    if |s| < n then |s| else n
  }

  /** The title `create_ticket` gives: the extracted "topic" when there is one (a value that
      is not a string fails the ticket's validation: `None`); otherwise the first 50
      characters of the text, followed by "..." exactly when the text is longer. */
  function Title(text: string, extractedInfo: Dict): (r: Option<string>)
    ensures "topic" in extractedInfo ==>
      (r.Some? <==> extractedInfo["topic"].PyStr?) && (r.Some? ==> r.value == extractedInfo["topic"].s)
    ensures "topic" !in extractedInfo ==> r.Some?
    ensures "topic" !in extractedInfo && |text| <= 50 ==> r == Some(text)
    ensures "topic" !in extractedInfo && |text| > 50 ==>
      |r.value| == 53 && r.value[..50] == text[..50] && r.value[50..] == "..."
  {
    if "topic" in extractedInfo then
      var topic := extractedInfo["topic"];
      if topic.PyStr? then Some(topic.s) else None
    else
      var head := text[..Keep(text, 50)];
      var r := head + (if |text| > 50 then "..." else "");
      if |text| <= 50 then
        assert head == text;
        assert r == text;
        Some(r)
      else Some(r)
  }

  /** The tags Python's iteration over a string yields: its characters, one at a time. */
  function Chars(s: string): (r: seq<string>)
    ensures |r| == |s| && forall i :: 0 <= i < |s| ==> r[i] == [s[i]]
  {
    seq(|s|, i requires 0 <= i < |s| => [s[i]])
  }

  /** The expertise areas `start_sme_hunt` hands to the hunt: the extracted "expertise_areas"
      when truthy, else the "topic" as the only area when the key is present, else the
      (falsy) extracted value itself. The hunt iterates the value it is given, so a string
      stands for its characters and an empty string, list or dictionary for no area at all.
      `None` is a value the hunt cannot search without raising once an expert is examined:
      a list holding a non-string, a topic that is not a string, or a value that is not a
      string, list or dictionary. `None` also stands for a non-empty dictionary, which has no
      form among the model's areas (the hunt would search its keys). */
  function ExpertiseAreas(extractedInfo: Dict): (r: Option<seq<string>>)
    ensures var v := Get(extractedInfo, "expertise_areas", PyList([]));
      Truthy(v) && v.PyList? ==> forall xs :: r == Some(xs) <==> v == PyList(StrList(xs))
    ensures var v := Get(extractedInfo, "expertise_areas", PyList([]));
      Truthy(v) && v.PyStr? ==>
        (r.Some? && |r.value| == |v.s| && forall i :: 0 <= i < |v.s| ==> r.value[i] == [v.s[i]])
    ensures var v := Get(extractedInfo, "expertise_areas", PyList([]));
      Truthy(v) && !v.PyList? && !v.PyStr? ==> r == None
    ensures !Truthy(Get(extractedInfo, "expertise_areas", PyList([]))) && "topic" in extractedInfo ==>
      (r.Some? <==> extractedInfo["topic"].PyStr?) && (r.Some? ==> r.value == [extractedInfo["topic"].s])
    ensures var v := Get(extractedInfo, "expertise_areas", PyList([]));
      !Truthy(v) && "topic" !in extractedInfo ==>
        (r.Some? <==> v.PyStr? || v.PyList? || v.PyDict?) && (r.Some? ==> r.value == [])
  {
    var areas := Get(extractedInfo, "expertise_areas", PyList([]));
    if Truthy(areas) then
      if areas.PyList? then
        var r := AsStrList(areas.items);
        forall xs ensures r == Some(xs) <==> areas == PyList(StrList(xs)) {
          AsStrListInverse(areas.items, xs);
        }
        r
      else if areas.PyStr? then Some(Chars(areas.s))
      else None
    else if "topic" in extractedInfo then
      var topic := extractedInfo["topic"];
      if topic.PyStr? then Some([topic.s]) else None
    else if areas.PyStr? || areas.PyList? || areas.PyDict? then Some([])
    else None
  }

  /** A missing or `None` "expertise_areas" with no topic: the former means no area, the
      latter reaches the hunt as `None`, which cannot be searched. */
  lemma MissingAndNoneAreasDiffer()
    ensures ExpertiseAreas(map[]) == Some([])
    ensures ExpertiseAreas(map["expertise_areas" := PyNone]) == None
  {
  }

  /** An empty list of areas falls back to the topic. */
  lemma EmptyAreasFallBackToTopic(topic: string)
    ensures ExpertiseAreas(map["expertise_areas" := PyList([]), "topic" := PyStr(topic)]) == Some([topic])
  {
  }

  /** `process_message` starts a hunt for an urgent query or a reply that escalates; a
      reply that answers, asks for more or acknowledges starts none for a query that is not
      urgent. */
  function ShouldHunt(queryType: QueryType, responseType: ResponseType): (r: bool)
    ensures queryType == UrgentIssue ==> r
    ensures responseType == EscalateToHuman ==> r
    ensures queryType != UrgentIssue && responseType in {DirectAnswer, RequestMoreInfo, Acknowledge} ==> !r
  {
    queryType == UrgentIssue || responseType == EscalateToHuman
  }

  /** With the reply classified by its wording: a hunt starts exactly for an urgent query, or
      for a reply that mentions an escalation phrase and no more-info phrase. */
  lemma ShouldHuntIff(queryType: QueryType, response: string)
    ensures ShouldHunt(queryType, ClassifyResponseType(response, queryType))
        <==> queryType == UrgentIssue
             || (!MentionsAny(Lower(response), MoreInfoIndicators) && MentionsAny(Lower(response), EscalateIndicators))
  {
  }
}
