/**
 * The built-in table of local disposal rules (six for Bengaluru, two for Mumbai, one for
 * Delhi) and its two lookups: by region text and by category.
 */
module DisposalRules {
  import opened Wrappers
  import opened Categories
  import Seqs
  import Text

  /**
   * One disposal rule, with the fields the lookups and the guide search read (the steps,
   * do and don't lists and links are display text only). `defaultInterval` is the suggested reminder interval in days, which
   * all rules but the first carry; `updatedDaysAgo` is how many days before the moment the
   * table is built its `lastUpdated` stamp lies.
   */
  datatype DisposalRule = DisposalRule(
    id: string, category: WasteCategory, region: string, city: string,
    title: string, description: string,
    defaultInterval: Option<int>, updatedDaysAgo: nat)

  const BbmpWet: DisposalRule := DisposalRule(
    id := "BBMP-WET-1", category := Wet, region := "Karnataka", city := "Bengaluru",
    title := "Bengaluru Wet Waste Segregation",
    description := "All organic, biodegradable waste generated from kitchens and gardens must be segregated and composted or handed over to BBMP collection daily or every other day.",
    defaultInterval := None, updatedDaysAgo := 15)

  const BbmpDry: DisposalRule := DisposalRule(
    id := "BBMP-DRY-1", category := Dry, region := "Karnataka", city := "Bengaluru",
    title := "Bengaluru Dry Waste Segregation (Non-Recyclable & Mixed Dry)",
    description := "This category includes non-biodegradable waste that cannot be easily recycled due to contamination, mixed materials, or lack of processing facilities.",
    defaultInterval := Some(7), updatedDaysAgo := 10)

  const BbmpRecyclable: DisposalRule := DisposalRule(
    id := "BBMP-REC-1", category := Recyclable, region := "Karnataka", city := "Bengaluru",
    title := "Bengaluru Recyclable Waste Segregation (Clean & Sorted)",
    description := "Clean and dry recyclable materials like paper, cardboard, plastic bottles, glass bottles, and metal cans are collected separately for further processing at Dry Waste Collection Centers (DWCCs).",
    defaultInterval := Some(14), updatedDaysAgo := 8)

  const BbmpHazardous: DisposalRule := DisposalRule(
    id := "BBMP-HAZ-1", category := Hazardous, region := "Karnataka", city := "Bengaluru",
    title := "Bengaluru Hazardous Waste Management",
    description := "Household batteries, chemicals, and hazardous materials require special disposal through BBMP authorized centers.",
    defaultInterval := Some(30), updatedDaysAgo := 22)

  const BbmpMedical: DisposalRule := DisposalRule(
    id := "BBMP-MED-1", category := Medical, region := "Karnataka", city := "Bengaluru",
    title := "Bengaluru Medical Waste Disposal",
    description := "Prescription medications, syringes, and medical supplies require disposal through authorized medical waste handlers.",
    defaultInterval := Some(1), updatedDaysAgo := 5)

  const BbmpEWaste: DisposalRule := DisposalRule(
    id := "BBMP-EW-1", category := EWaste, region := "Karnataka", city := "Bengaluru",
    title := "Bengaluru E-Waste Management",
    description := "Computers, phones, and electronic devices require specialized recycling through BBMP authorized e-waste recyclers.",
    defaultInterval := Some(30), updatedDaysAgo := 18)

  const BmcWet: DisposalRule := DisposalRule(
    id := "BMC-WET-1", category := Wet, region := "Maharashtra", city := "Mumbai",
    title := "Mumbai Wet Waste Segregation",
    description := "All organic, biodegradable waste generated from kitchens and gardens must be segregated and composted or handed over to BMC collection daily.",
    defaultInterval := Some(1), updatedDaysAgo := 12)

  const BmcRecyclable: DisposalRule := DisposalRule(
    id := "BMC-REC-1", category := Recyclable, region := "Maharashtra", city := "Mumbai",
    title := "Mumbai Recyclable Waste Management",
    description := "Clean plastic bottles, containers, and packaging materials can be recycled through BMC collection or local kabadiwala.",
    defaultInterval := Some(7), updatedDaysAgo := 15)

  const McdDry: DisposalRule := DisposalRule(
    id := "MCD-DRY-1", category := Dry, region := "Delhi", city := "Delhi",
    title := "Delhi Dry Waste Management",
    description := "Clean paper products and cardboard packaging for recycling through Delhi's waste management system.",
    defaultInterval := Some(7), updatedDaysAgo := 12)

  /** `DISPOSAL_RULES`, in table order. */
  const Rules: seq<DisposalRule> := BengaluruRules + MumbaiRules + DelhiRules

  /** The rules of the Bengaluru municipal corporation (BBMP). */
  const BengaluruRules: seq<DisposalRule> := [BbmpWet, BbmpDry, BbmpRecyclable, BbmpHazardous, BbmpMedical, BbmpEWaste]
  /** The rules of the Mumbai municipal corporation (BMC). */
  const MumbaiRules: seq<DisposalRule> := [BmcWet, BmcRecyclable]
  /** The rule of the Delhi municipal corporation (MCD). */
  const DelhiRules: seq<DisposalRule> := [McdDry]

  /** Every rule of `rules` is for `city` in `region`. */
  predicate LocatedIn(rules: seq<DisposalRule>, city: string, region: string) {
    forall k :: 0 <= k < |rules| ==> rules[k].city == city && rules[k].region == region
  }

  /** Where the rules of each group apply. */
  lemma GroupPlaces()
    ensures LocatedIn(BengaluruRules, "Bengaluru", "Karnataka")
    ensures LocatedIn(MumbaiRules, "Mumbai", "Maharashtra")
    ensures LocatedIn(DelhiRules, "Delhi", "Delhi")
  {
  }

  /** No two rules share an id. */
  lemma RuleIdsDistinct()
    ensures Seqs.DistinctBy((r: DisposalRule) => r.id, Rules)
  {
  }

  /** Whether the lowercased city or region of `rule` contains the lowercased `query`. */
  predicate InRegion(query: string, rule: DisposalRule) {
    Text.Contains(Text.ToLower(rule.city), Text.ToLower(query))
    || Text.Contains(Text.ToLower(rule.region), Text.ToLower(query))
  }

  function InRegionOf(query: string): DisposalRule -> bool {
    (rule: DisposalRule) => InRegion(query, rule)
  }

  /** `getDisposalRulesByRegion`: the rules whose city or region contains the query, ignoring case, in table order. */
  function ByRegion(query: string): (r: seq<DisposalRule>)
    ensures Seqs.IsSubsequence(r, Rules)
  {
    Seqs.FilterIsSubsequence(InRegionOf(query), Rules);
    Seqs.Filter(InRegionOf(query), Rules)
  }

  /** A rule is returned for a region query exactly when its city or region contains the query. */
  lemma ByRegionMembers(query: string)
    ensures forall k :: 0 <= k < |ByRegion(query)| ==> InRegion(query, ByRegion(query)[k])
    ensures forall k :: 0 <= k < |Rules| && InRegion(query, Rules[k]) ==> Rules[k] in ByRegion(query)
  {
    Seqs.FilterMembers(InRegionOf(query), Rules);
  }

  /** Queries that differ only in letter case select the same rules. */
  lemma ByRegionIgnoresCase(q1: string, q2: string)
    requires Text.ToLower(q1) == Text.ToLower(q2)
    ensures ByRegion(q1) == ByRegion(q2)
  {
    assert forall rule :: InRegion(q1, rule) == InRegion(q2, rule);
    Seqs.FilterExtensional(InRegionOf(q1), InRegionOf(q2), Rules);
  }

  /** The empty query selects every rule. */
  lemma ByRegionEmpty()
    ensures ByRegion("") == Rules
  {
    forall rule: DisposalRule ensures InRegion("", rule) {
      Text.ContainsEmpty(Text.ToLower(rule.city));
    }
  }

  lemma LowerPlaces()
    ensures Text.ToLower("Karnataka") == "karnataka"
  {
  }

  /** The query "Karnataka" selects a Bengaluru rule. */
  lemma KarnatakaSelectsBengaluru(rule: DisposalRule)
    requires rule.city == "Bengaluru" && rule.region == "Karnataka"
    ensures InRegion("Karnataka", rule)
  {
    LowerPlaces();
    assert Text.OccursAt("karnataka", "karnataka", 0);
  }

  /** The query "Karnataka" selects no Mumbai rule. */
  lemma KarnatakaSkipsMumbai(rule: DisposalRule)
    requires rule.city == "Mumbai" && rule.region == "Maharashtra"
    ensures !InRegion("Karnataka", rule)
  {
    LowerPlaces();
    assert Text.ToLower("Mumbai") == "mumbai";
    assert Text.ToLower("Maharashtra") == "maharashtra";
    Text.MissingFirstChar("mumbai", "karnataka");
    Text.MissingFirstChar("maharashtra", "karnataka");
  }

  /** The query "Karnataka" selects no Delhi rule. */
  lemma KarnatakaSkipsDelhi(rule: DisposalRule)
    requires rule.city == "Delhi" && rule.region == "Delhi"
    ensures !InRegion("Karnataka", rule)
  {
    LowerPlaces();
    assert Text.ToLower("Delhi") == "delhi";
    Text.MissingFirstChar("delhi", "karnataka");
  }

  /** The state name selects exactly the six Bengaluru rules. */
  lemma ByRegionKarnataka()
    ensures ByRegion("Karnataka") == BengaluruRules
  {
    GroupPlaces();
    var q := InRegionOf("Karnataka");
    forall k | 0 <= k < |BengaluruRules| ensures q(BengaluruRules[k]) {
      KarnatakaSelectsBengaluru(BengaluruRules[k]);
    }
    forall k | 0 <= k < |MumbaiRules| ensures !q(MumbaiRules[k]) {
      KarnatakaSkipsMumbai(MumbaiRules[k]);
    }
    forall k | 0 <= k < |DelhiRules| ensures !q(DelhiRules[k]) {
      KarnatakaSkipsDelhi(DelhiRules[k]);
    }
    Seqs.FilterConcat(q, BengaluruRules, MumbaiRules);
    Seqs.FilterConcat(q, BengaluruRules + MumbaiRules, DelhiRules);
  }

  /** A query longer than a rule's city and region selects it never. */
  lemma TooLongForPlace(query: string, rule: DisposalRule)
    requires |query| > |rule.city| && |query| > |rule.region|
    ensures !InRegion(query, rule)
  {
    Text.ContainsTooLong(Text.ToLower(rule.city), Text.ToLower(query));
    Text.ContainsTooLong(Text.ToLower(rule.region), Text.ToLower(query));
  }

  /** The "City, State" form the settings store matches no rule: no field contains the whole text. */
  lemma ByRegionFullCityName()
    ensures ByRegion("Bengaluru, Karnataka") == []
  {
    GroupPlaces();
    forall k | 0 <= k < |Rules| ensures !InRegion("Bengaluru, Karnataka", Rules[k]) {
      TooLongForPlace("Bengaluru, Karnataka", Rules[k]);
    }
  }

  function HasKey(category: string): DisposalRule -> bool {
    (rule: DisposalRule) => Key(rule.category) == category
  }

  /** `getDisposalRulesByCategory`: the rules whose category is `category`, in table order. */
  function ByCategory(category: string): (r: seq<DisposalRule>)
    ensures Seqs.IsSubsequence(r, Rules)
    ensures Parse(category).None? ==> r == []
  {
    Seqs.FilterIsSubsequence(HasKey(category), Rules);
    Seqs.Filter(HasKey(category), Rules)
  }

  /** A rule is returned for a category exactly when it has that category. */
  lemma ByCategoryMembers(c: WasteCategory)
    ensures forall k :: 0 <= k < |ByCategory(Key(c))| ==> ByCategory(Key(c))[k].category == c
    ensures forall k :: 0 <= k < |Rules| && Rules[k].category == c ==> Rules[k] in ByCategory(Key(c))
  {
    Seqs.FilterMembers(HasKey(Key(c)), Rules);
    forall k | 0 <= k < |ByCategory(Key(c))| ensures ByCategory(Key(c))[k].category == c {
      KeyInjective(ByCategory(Key(c))[k].category, c);
    }
  }
}
