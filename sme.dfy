/**
  The expert directory (src/models/sme.py): subject matter experts, the case-insensitive
  expertise match, availability, the rating used for ranking, and the database query that
  filters experts and sorts them by (rating sum over the required tags, lower load first).

  Python's `list.sort(key=..., reverse=True)` is a stable sort; it is modelled here by
  `SortByRank`, a stable insertion sort on values, with its guarantees proved below.
*/
module Sme {
  import opened Wrappers
  import opened Text
  import opened PyData
  import opened StableSort

  datatype Expert = Expert(
    slackId: string,
    name: string,
    expertise: seq<string>,
    availability: bool,
    skillsRating: map<string, int>,
    currentLoad: int,
    maxConcurrentIssues: int)

  // ---------------------------------------------------------------------------------------
  // Matching, availability and rating

  /** `has_expertise`: the tag matches one of the expert's tags, ignoring case. */
  function HasExpertise(e: Expert, tag: string): (r: bool)
    ensures r <==> exists t :: t in e.expertise && Lower(t) == Lower(tag)
  {
    Lower(tag) in (set t | t in e.expertise :: Lower(t))
  }

  /** `has_any_expertise`: every expert matches an empty requirement; otherwise some required
      tag matches some tag of the expert, ignoring case. */
  function HasAnyExpertise(e: Expert, required: seq<string>): (r: bool)
    ensures r <==> required == [] || exists k :: 0 <= k < |required| && HasExpertise(e, required[k])
  {
    if required == [] then true
    else
      var wanted := set x | x in required :: Lower(x);
      var held := set t | t in e.expertise :: Lower(t);
      assert forall k :: 0 <= k < |required| && HasExpertise(e, required[k]) ==> Lower(required[k]) in wanted * held;
      wanted * held != {}
  }

  /** `get_rating_for_expertise`: the rating stored under the lower-cased tag, else 0. Any
      non-zero rating was therefore found under a lower-case key, whatever the tag's case. */
  function RatingFor(e: Expert, tag: string): (r: int)
    ensures Lower(tag) in e.skillsRating ==> r == e.skillsRating[Lower(tag)]
    ensures Lower(tag) !in e.skillsRating ==> r == 0
    ensures r != 0 ==> exists k :: k in e.skillsRating && IsLowerCase(k) && e.skillsRating[k] == r
  {
    LowerIsLowerCase(tag);
    if Lower(tag) in e.skillsRating then e.skillsRating[Lower(tag)] else 0
  }

  /** The rating map without its keys that contain a capital letter. */
  function LowerCaseKeys(m: map<string, int>): (r: map<string, int>)
    ensures forall k :: k in r <==> k in m && IsLowerCase(k)
  {
    map k | k in m && IsLowerCase(k) :: m[k]
  }

  /** Because the tag is lower-cased before the lookup, a rating stored under a key with a
      capital letter never contributes: dropping those keys changes no rating. */
  lemma CapitalisedKeysNeverRate(e: Expert, tag: string)
    ensures RatingFor(e, tag) == RatingFor(e.(skillsRating := LowerCaseKeys(e.skillsRating)), tag)
  {
    LowerIsLowerCase(tag);
  }

  /** `is_available`: flagged available and below the concurrency limit. An expert flagged
      unavailable, or already at (or above) the limit, is never available. */
  function IsAvailable(e: Expert): (r: bool)
    ensures !e.availability ==> !r
    ensures e.currentLoad >= e.maxConcurrentIssues ==> !r
    ensures e.availability && e.currentLoad < e.maxConcurrentIssues ==> r
  {
    e.availability && e.currentLoad < e.maxConcurrentIssues
  }

  /** The sum of the expert's ratings over the required tags, taken over the list, so a tag
      required twice counts twice. */
  function RatingSum(e: Expert, required: seq<string>): int {
    if required == [] then 0 else RatingFor(e, required[0]) + RatingSum(e, required[1..])
  }

  lemma {:induction false} RatingSumAppend(e: Expert, a: seq<string>, b: seq<string>)
    ensures RatingSum(e, a + b) == RatingSum(e, a) + RatingSum(e, b)
  {
    if a == [] {
      assert a + b == b;
    } else {
      assert (a + b)[0] == a[0];
      assert (a + b)[1..] == a[1..] + b;
      RatingSumAppend(e, a[1..], b);
    }
  }

  /** Repeating the required tags doubles the score. */
  lemma DuplicateTagsCountTwice(e: Expert, required: seq<string>)
    ensures RatingSum(e, required + required) == 2 * RatingSum(e, required)
  {
    RatingSumAppend(e, required, required);
  }

  // ---------------------------------------------------------------------------------------
  // Ranking: descending by (rating sum, -current load), stable

  /** The sort key of `find_experts_by_expertise`: the rating sum, then the load negated. */
  function Key(e: Expert, required: seq<string>): RankKey {
    RankKey(RatingSum(e, required), -e.currentLoad)
  }

  function RankOf(required: seq<string>): Expert -> RankKey {
    e => Key(e, required)
  }

  /** The sort of `find_experts_by_expertise` (and of the VIP re-sort): stable, non-increasing. */
  function SortByRank(s: seq<Expert>, required: seq<string>): seq<Expert> {
    SortByKey(s, RankOf(required))
  }

  /** Ranked by rating sum, with lower load first among equal sums. */
  lemma RankedOrder(s: seq<Expert>, required: seq<string>, i: int, j: int)
    requires Ranked(s, RankOf(required)) && 0 <= i < j < |s|
    ensures RatingSum(s[i], required) >= RatingSum(s[j], required)
    ensures RatingSum(s[i], required) == RatingSum(s[j], required) ==> s[i].currentLoad <= s[j].currentLoad
  {
    assert !Below(RankOf(required)(s[i]), RankOf(required)(s[j]));
  }

  /** Equal rating sums are ordered by load: the less loaded expert comes first even when it
      was listed second. */
  lemma TieBrokenByLoad(x: Expert, y: Expert, required: seq<string>)
    requires RatingSum(x, required) == RatingSum(y, required) && x.currentLoad < y.currentLoad
    ensures SortByRank([y, x], required) == [x, y]
  {
    assert [y, x][..1] == [y];
    assert [y][..0] == [];
    assert SortByKey([y], RankOf(required)) == [y];
    assert Below(RankOf(required)(y), RankOf(required)(x));
  }

  // ---------------------------------------------------------------------------------------
  // The database query

  /** The filter of `find_experts_by_expertise`. */
  predicate Qualifies(e: Expert, required: seq<string>, availableOnly: bool) {
    (!availableOnly || IsAvailable(e)) && HasAnyExpertise(e, required)
  }

  /** The experts that pass the filter, in database order; each qualifying expert appears
      exactly as often as in the database and no other does. */
  function Matching(experts: seq<Expert>, required: seq<string>, availableOnly: bool): (r: seq<Expert>)
    ensures forall e :: multiset(r)[e] == if Qualifies(e, required, availableOnly) then multiset(experts)[e] else 0
    ensures forall e :: e in r ==> e in experts && Qualifies(e, required, availableOnly)
  {
    if experts == [] then []
    else
      var init := experts[..|experts| - 1];
      var last := experts[|experts| - 1];
      assert experts == init + [last];
      var r := Matching(init, required, availableOnly) + (if Qualifies(last, required, availableOnly) then [last] else []);
      assert forall e :: e in r ==> e in multiset(r);
      r
  }

  /** With `available_only` the matches are a subset of the unrestricted matches. */
  lemma AvailableMatchesAreMatches(experts: seq<Expert>, required: seq<string>, e: Expert)
    requires e in Matching(experts, required, true)
    ensures e in Matching(experts, required, false)
  {
    assert multiset(Matching(experts, required, false))[e] > 0;
  }

  /** There is no match at all exactly when no expert of the database has a required tag. */
  lemma NoMatchIff(experts: seq<Expert>, required: seq<string>, availableOnly: bool)
    ensures Matching(experts, required, availableOnly) == []
        <==> forall e :: e in experts ==> !Qualifies(e, required, availableOnly)
  {
    var r := Matching(experts, required, availableOnly);
    if r == [] {
      forall e | e in experts ensures !Qualifies(e, required, availableOnly) {
        assert multiset(r)[e] == 0;
      }
    } else {
      assert r[0] in r;
    }
  }

  /** Of two experts of which only the first qualifies, the filter keeps the first alone. */
  lemma MatchingFirstOfTwo(a: Expert, b: Expert, required: seq<string>, availableOnly: bool)
    requires Qualifies(a, required, availableOnly) && !Qualifies(b, required, availableOnly)
    ensures Matching([a, b], required, availableOnly) == [a]
  {
    var ab := [a, b];
    assert ab[..|ab| - 1] == [a] && ab[|ab| - 1] == b;
    assert [a][..0] == [];
    assert Matching([a], required, availableOnly) == [a];
    assert Matching(ab, required, availableOnly) == Matching([a], required, availableOnly);
  }

  /** The result of `find_experts_by_expertise`: exactly the qualifying experts of the
      database, each as often as it occurs there, ranked, and with equal keys in database order. */
  function RankedMatches(experts: seq<Expert>, required: seq<string>, availableOnly: bool): (r: seq<Expert>)
    ensures forall e :: e in r ==> e in experts && Qualifies(e, required, availableOnly)
    ensures forall e :: multiset(r)[e] == if Qualifies(e, required, availableOnly) then multiset(experts)[e] else 0
    ensures Ranked(r, RankOf(required))
    ensures forall k :: WithKey(r, RankOf(required), k) == WithKey(Matching(experts, required, availableOnly), RankOf(required), k)
  {
    var m := Matching(experts, required, availableOnly);
    var r := SortByRank(m, required);
    forall k ensures WithKey(r, RankOf(required), k) == WithKey(m, RankOf(required), k) {
      SortStable(m, RankOf(required), k);
    }
    assert forall e :: e in r ==> e in multiset(m);
    r
  }

  /** The lower-cased tags of one expert. */
  function TagsOf(e: Expert): set<string> {
    set t | t in e.expertise :: Lower(t)
  }

  /** The set `get_all_expertise_areas` builds, expert by expert. */
  function AllExpertiseAreas(experts: seq<Expert>): set<string> {
    if experts == [] then {}
    else AllExpertiseAreas(experts[..|experts| - 1]) + TagsOf(experts[|experts| - 1])
  }

  /** The expertise areas are every tag of every expert, lower-cased, and nothing else. */
  lemma {:induction false} AllExpertiseAreasAreTags(experts: seq<Expert>)
    ensures forall e, t :: e in experts && t in e.expertise ==> Lower(t) in AllExpertiseAreas(experts)
    ensures forall a :: a in AllExpertiseAreas(experts) ==>
      IsLowerCase(a) && exists e :: e in experts && HasExpertise(e, a)
  {
    if experts != [] {
      var init := experts[..|experts| - 1];
      var last := experts[|experts| - 1];
      assert experts == init + [last];
      AllExpertiseAreasAreTags(init);
      forall a | a in TagsOf(last) ensures IsLowerCase(a) && HasExpertise(last, a) {
        var t :| t in last.expertise && a == Lower(t);
        LowerIsLowerCase(t);
      }
    }
  }

  // ---------------------------------------------------------------------------------------
  // Stored form

  /** `SubjectMatterExpert.from_dict`: `slack_id` and `name` are required, the other keys
      default to no expertise, available, no ratings, load 0 and at most 3 issues. */
  function ExpertFromDict(d: Dict): (r: Result<Expert, DecodeError>)
    ensures "slack_id" !in d ==> r == Err(MissingKey("slack_id"))
    ensures "slack_id" in d && "name" !in d ==> r == Err(MissingKey("name"))
    ensures r.Ok? ==> "slack_id" in d && d["slack_id"] == PyStr(r.value.slackId)
    ensures r.Ok? ==> "name" in d && d["name"] == PyStr(r.value.name)
    ensures r.Ok? ==> Get(d, "expertise", PyList([])) == PyList(StrList(r.value.expertise))
    ensures r.Ok? ==> Get(d, "availability", PyBool(true)) == PyBool(r.value.availability)
    ensures r.Ok? ==> Get(d, "current_load", PyInt(0)) == PyInt(r.value.currentLoad)
    ensures r.Ok? ==> Get(d, "max_concurrent_issues", PyInt(3)) == PyInt(r.value.maxConcurrentIssues)
    ensures r.Ok? ==> var stored := Get(d, "skills_rating", PyDict(map[]));
      stored.PyDict? && stored.entries.Keys == r.value.skillsRating.Keys
      && forall k :: k in r.value.skillsRating ==> stored.entries[k] == PyInt(r.value.skillsRating[k])
  {
    // Both keys are read (and may raise `KeyError`) before any value is validated.
    var _ :- if "slack_id" !in d then Err(MissingKey("slack_id"))
      else if "name" !in d then Err(MissingKey("name"))
      else Ok(());
    var slackId :- RequiredStr(d, "slack_id");
    var name :- RequiredStr(d, "name");
    var expertise :- StrListOr(d, "expertise");
    var availability := Get(d, "availability", PyBool(true));
    var ratings := Get(d, "skills_rating", PyDict(map[]));
    var load := Get(d, "current_load", PyInt(0));
    var maxIssues := Get(d, "max_concurrent_issues", PyInt(3));
    if !availability.PyBool? then Err(InvalidValue("availability"))
    else if !ratings.PyDict? || exists k :: k in ratings.entries && !ratings.entries[k].PyInt? then
      Err(InvalidValue("skills_rating"))
    else if !load.PyInt? then Err(InvalidValue("current_load"))
    else if !maxIssues.PyInt? then Err(InvalidValue("max_concurrent_issues"))
    else
      var rating := map k | k in ratings.entries :: ratings.entries[k].i;
      AsStrListInverse(Get(d, "expertise", PyList([])).items, expertise);
      Ok(Expert(slackId, name, expertise, availability.b, rating, load.i, maxIssues.i))
  }

  /** Absent keys take their defaults. */
  lemma ExpertDefaults(d: Dict)
    requires ExpertFromDict(d).Ok?
    ensures "expertise" !in d ==> ExpertFromDict(d).value.expertise == []
    ensures "availability" !in d ==> ExpertFromDict(d).value.availability
    ensures "skills_rating" !in d ==> ExpertFromDict(d).value.skillsRating == map[]
    ensures "current_load" !in d ==> ExpertFromDict(d).value.currentLoad == 0
    ensures "max_concurrent_issues" !in d ==> ExpertFromDict(d).value.maxConcurrentIssues == 3
  {
  }

  /** A record with only an id and a name is a fresh, available, unrated expert. */
  lemma MinimalExpert(slackId: string, name: string)
    ensures ExpertFromDict(map["slack_id" := PyStr(slackId), "name" := PyStr(name)])
         == Ok(Expert(slackId, name, [], true, map[], 0, 3))
  {
    var d := map["slack_id" := PyStr(slackId), "name" := PyStr(name)];
    assert RequiredStr(d, "slack_id") == Ok(slackId);
    assert RequiredStr(d, "name") == Ok(name);
    assert "expertise" !in d && "availability" !in d && "skills_rating" !in d;
    assert "current_load" !in d && "max_concurrent_issues" !in d;
  }

  // ---------------------------------------------------------------------------------------
  // The database object

  class SmeDatabase {
    var experts: seq<Expert>

    constructor (experts: seq<Expert>)
      ensures this.experts == experts
    {
      this.experts := experts;
    }

    /** `get_all_expertise_areas`, built up expert by expert. */
    method GetAllExpertiseAreas() returns (areas: set<string>)
      ensures areas == AllExpertiseAreas(experts)
    {
      areas := {};
      for i := 0 to |experts|
        invariant areas == AllExpertiseAreas(experts[..i])
      {
        assert experts[..i + 1][..i] == experts[..i];
        areas := areas + TagsOf(experts[i]);
      }
      assert experts[..|experts|] == experts;
    }

    /** `find_experts_by_expertise`: collects the qualifying experts in database order, then
        sorts them by rank. Reads the database and changes nothing. */
    method FindExpertsByExpertise(required: seq<string>, availableOnly: bool) returns (r: seq<Expert>)
      ensures r == RankedMatches(experts, required, availableOnly)
    {
      var matching: seq<Expert> := [];
      for i := 0 to |experts|
        invariant matching == Matching(experts[..i], required, availableOnly)
      {
        assert experts[..i + 1][..i] == experts[..i];
        if (!availableOnly || IsAvailable(experts[i])) && HasAnyExpertise(experts[i], required) {
          matching := matching + [experts[i]];
        }
      }
      assert experts[..|experts|] == experts;
      r := SortByRank(matching, required);
    }
  }
}
