/**
 * The rules service of the single-page app: three sample rules stamped with the requested
 * city, an optional category filter, and a text search over title, description and steps.
 */
module RulesService {
  import opened Wrappers
  import Seqs
  import Text

  /**
   * A rule as the service returns it, with the fields its filters read (the do and don't lists,
   * pickup schedules and links are display text only). `lastUpdated` is the moment of the call.
   */
  datatype ServiceRule = ServiceRule(
    id: string, category: string, region: string, city: string,
    title: string, description: string, steps: seq<string>, lastUpdated: int)

  /** `city || "San Francisco"`: an absent or empty city falls back to San Francisco. */
  function CityOrDefault(city: Option<string>): string {
    if city.Some? && city.value != "" then city.value else "San Francisco"
  }

  /** The three sample rules as written, before the city and the time are filled in. */
  const Samples: seq<ServiceRule> := [
    ServiceRule("1", "recyclable", "California", "",
      "Plastic Bottles & Containers", "Clean plastic bottles and containers for recycling",
      ["Empty and rinse containers thoroughly", "Remove caps and lids (recycle separately)",
       "Place in blue recycling bin on collection day"], 0),
    ServiceRule("2", "wet", "California", "",
      "Food Waste & Organic Matter", "Proper disposal of food scraps and organic waste",
      ["Collect food scraps in compost bin", "Add brown materials like paper", "Place in green organics bin"], 0),
    ServiceRule("3", "hazardous", "California", "",
      "Household Hazardous Waste", "Safe disposal of batteries, chemicals, and electronics",
      ["Collect hazardous items separately", "Take to designated drop-off location", "Never put in regular trash"], 0)]

  /** The rules with `city` and `now` filled in. */
  function Stamp(rules: seq<ServiceRule>, city: string, now: int): (r: seq<ServiceRule>)
    ensures |r| == |rules|
    ensures forall k :: 0 <= k < |rules| ==> r[k] == rules[k].(city := city, lastUpdated := now)
  {
    if rules == [] then [] else [rules[0].(city := city, lastUpdated := now)] + Stamp(rules[1..], city, now)
  }

  /** The three sample rules, for `city`, stamped at `now`. */
  function SampleRules(city: Option<string>, now: int): seq<ServiceRule> {
    Stamp(Samples, CityOrDefault(city), now)
  }

  function HasCategory(category: string): ServiceRule -> bool {
    (rule: ServiceRule) => rule.category == category
  }

  /**
   * `getRules`: the sample rules, or, for a non-empty category, those with exactly that
   * category, in order; every rule carries the requested city or the default one.
   */
  function GetRules(city: Option<string>, category: Option<string>, now: int): (r: seq<ServiceRule>)
    ensures category.None? || category.value == "" ==> r == SampleRules(city, now)
    ensures Seqs.IsSubsequence(r, SampleRules(city, now))
    ensures forall k :: 0 <= k < |r| ==> r[k].city == CityOrDefault(city) && r[k].lastUpdated == now
  {
    var all := SampleRules(city, now);
    if category.Some? && category.value != "" then
      Seqs.FilterIsSubsequence(HasCategory(category.value), all);
      Seqs.FilterMembers(HasCategory(category.value), all);
      Seqs.Filter(HasCategory(category.value), all)
    else
      Seqs.SubsequenceReflexive(all);
      all
  }

  /** With a category, a sample rule is returned exactly when it has that category. */
  lemma GetRulesByCategory(city: Option<string>, category: string, now: int)
    requires category != ""
    ensures forall k :: 0 <= k < |GetRules(city, Some(category), now)| ==>
      GetRules(city, Some(category), now)[k].category == category
    ensures forall k :: 0 <= k < 3 && SampleRules(city, now)[k].category == category ==>
      SampleRules(city, now)[k] in GetRules(city, Some(category), now)
  {
    Seqs.FilterMembers(HasCategory(category), SampleRules(city, now));
  }

  /** A category no sample rule has gives nothing, for example "dry". */
  lemma GetRulesDryIsEmpty(city: Option<string>, now: int)
    ensures GetRules(city, Some("dry"), now) == []
  {
  }

  /** The text `searchRules` looks in: title, description and the steps joined by spaces, lowercased. */
  function SearchText(rule: ServiceRule): string {
    Text.ToLower(rule.title + " " + rule.description + " " + Text.Join(rule.steps, " "))
  }

  function MatchesSearch(query: string): ServiceRule -> bool {
    (rule: ServiceRule) => Text.Contains(SearchText(rule), Text.ToLower(query))
  }

  /** `searchRules`: the rules for the city whose search text contains the lowercased query. */
  function SearchRules(query: string, city: Option<string>, now: int): (r: seq<ServiceRule>)
    ensures Seqs.IsSubsequence(r, GetRules(city, None, now))
  {
    Seqs.FilterIsSubsequence(MatchesSearch(query), GetRules(city, None, now));
    Seqs.Filter(MatchesSearch(query), GetRules(city, None, now))
  }

  /** A rule is found exactly when its search text contains the lowercased query. */
  lemma SearchRulesMembers(query: string, city: Option<string>, now: int)
    ensures forall k :: 0 <= k < |SearchRules(query, city, now)| ==>
      Text.Contains(SearchText(SearchRules(query, city, now)[k]), Text.ToLower(query))
    ensures forall k :: 0 <= k < 3 && Text.Contains(SearchText(SampleRules(city, now)[k]), Text.ToLower(query)) ==>
      SampleRules(city, now)[k] in SearchRules(query, city, now)
  {
    Seqs.FilterMembers(MatchesSearch(query), GetRules(city, None, now));
  }

  /** The empty query finds every rule. */
  lemma SearchEmptyQuery(city: Option<string>, now: int)
    ensures SearchRules("", city, now) == GetRules(city, None, now)
  {
    forall k | 0 <= k < |GetRules(city, None, now)| ensures MatchesSearch("")(GetRules(city, None, now)[k]) {
      Text.ContainsEmpty(SearchText(GetRules(city, None, now)[k]));
    }
  }

  /** Queries that differ only in letter case find the same rules. */
  lemma SearchIgnoresCase(q1: string, q2: string, city: Option<string>, now: int)
    requires Text.ToLower(q1) == Text.ToLower(q2)
    ensures SearchRules(q1, city, now) == SearchRules(q2, city, now)
  {
    Seqs.FilterExtensional(MatchesSearch(q1), MatchesSearch(q2), GetRules(city, None, now));
  }

  /** A query found in a rule's lowercased title, description or step is found by the search. */
  lemma SearchFindsParts(rule: ServiceRule, query: string)
    requires Text.Contains(Text.ToLower(rule.title), query)
          || Text.Contains(Text.ToLower(rule.description), query)
          || exists k :: 0 <= k < |rule.steps| && Text.Contains(Text.ToLower(rule.steps[k]), query)
    ensures Text.Contains(SearchText(rule), query)
  {
    var t, d, j := rule.title, rule.description, Text.Join(rule.steps, " ");
    if Text.Contains(Text.ToLower(t), query) {
      Text.ContainsLowerPart([], t, " " + d + " " + j, query);
      assert [] + t + (" " + d + " " + j) == t + " " + d + " " + j;
    } else if Text.Contains(Text.ToLower(d), query) {
      Text.ContainsLowerPart(t + " ", d, " " + j, query);
      assert t + " " + d + (" " + j) == t + " " + d + " " + j;
    } else {
      var k :| 0 <= k < |rule.steps| && Text.Contains(Text.ToLower(rule.steps[k]), query);
      StepInJoined(rule.steps, k, query);
      Text.ContainsLowerPart(t + " " + d + " ", j, [], query);
      assert t + " " + d + " " + j + [] == t + " " + d + " " + j;
    }
  }

  /** A lowercased step's text occurs in the lowercased joined steps. */
  lemma StepInJoined(steps: seq<string>, k: nat, query: string)
    requires k < |steps| && Text.Contains(Text.ToLower(steps[k]), query)
    ensures Text.Contains(Text.ToLower(Text.Join(steps, " ")), query)
  {
    var joined := Text.Join(steps, " ");
    assert Text.Contains(joined, steps[k]);
    var i :| Text.OccursAt(joined, steps[k], i);
    var lj := Text.ToLower(joined);
    assert lj[i..i + |steps[k]|] == Text.ToLower(steps[k]);
    var j :| Text.OccursAt(Text.ToLower(steps[k]), query, j);
    assert lj[i + j..i + j + |query|] == Text.ToLower(steps[k])[j..j + |query|];
    assert Text.OccursAt(lj, query, i + j);
  }
}
