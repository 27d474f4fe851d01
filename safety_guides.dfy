/** The general disposal safety guides: a fixed table and three lookups over it. */
module SafetyGuides {
  import opened Wrappers
  import Seqs

  datatype Severity = Low | Medium | High

  /** A safety guide. Its category is free text ("e-waste", not a waste category key). */
  datatype SafetyGuide = SafetyGuide(
    id: string, title: string, category: string, description: string,
    doItems: seq<string>, dontItems: seq<string>, icon: string, severity: Severity, tips: seq<string>)

  const HazardousGuide: SafetyGuide := SafetyGuide(
    id := "hazardous-waste", title := "Hazardous Waste Disposal", category := "hazardous",
    description := "Proper disposal of hazardous materials to protect yourself and the environment",
    doItems := [
      "Store in original containers with labels",
      "Keep away from children and pets",
      "Take to designated collection centers",
      "Check local regulations for specific items",
      "Use protective gear when handling"],
    dontItems := [
      "Never pour down drains or toilets",
      "Don't mix different hazardous materials",
      "Avoid burning or incinerating",
      "Don't dispose in regular trash",
      "Never store near food or water sources"],
    icon := "\U{26A0}\U{FE0F}", severity := High,
    tips := [
      "Create a designated storage area away from living spaces",
      "Keep an inventory of hazardous items with expiration dates",
      "Research local drop-off locations before accumulation",
      "Consider alternatives to hazardous products when possible"])

  const EWasteGuide: SafetyGuide := SafetyGuide(
    id := "e-waste", title := "Electronic Waste (E-Waste)", category := "e-waste",
    description := "Safe disposal of electronic devices and components",
    doItems := [
      "Remove personal data before disposal",
      "Take to certified e-waste recyclers",
      "Check for manufacturer take-back programs",
      "Separate batteries from devices",
      "Keep cables and chargers together"],
    dontItems := [
      "Don't throw in regular trash",
      "Avoid breaking or dismantling yourself",
      "Don't burn electronic components",
      "Never dispose of batteries in regular trash",
      "Don't mix with other waste types"],
    icon := "\U{1F4BB}", severity := Medium,
    tips := [
      "Consider donating working electronics to charities",
      "Look for trade-in programs for newer devices",
      "Store old devices safely until disposal",
      "Check if components can be reused or repurposed"])

  const MedicalGuide: SafetyGuide := SafetyGuide(
    id := "medical-waste", title := "Medical & Pharmaceutical Waste", category := "medical",
    description := "Proper disposal of medications and medical supplies",
    doItems := [
      "Take unused medications to pharmacy take-back programs",
      "Mix pills with unpalatable substances before disposal",
      "Remove personal information from containers",
      "Follow specific disposal instructions on labels",
      "Use designated medical waste containers"],
    dontItems := [
      "Never flush medications down the toilet",
      "Don't share prescription medications",
      "Avoid disposing in regular household trash",
      "Don't crush or break pills unnecessarily",
      "Never mix different types of medications"],
    icon := "\U{1F48A}", severity := High,
    tips := [
      "Keep a list of medications and their disposal requirements",
      "Check expiration dates regularly",
      "Consider pill organizers to reduce waste",
      "Ask your pharmacist about disposal options"])

  const FoodGuide: SafetyGuide := SafetyGuide(
    id := "food-waste", title := "Food Waste Management", category := "wet",
    description := "Efficient handling of organic food waste",
    doItems := [
      "Compost fruit and vegetable scraps",
      "Use airtight containers to prevent odors",
      "Freeze meat scraps until collection day",
      "Separate different types of organic waste",
      "Use biodegradable bags when possible"],
    dontItems := [
      "Don't let food waste sit for too long",
      "Avoid mixing with non-organic materials",
      "Don't dispose of large quantities at once",
      "Never put hot food directly in containers",
      "Don't use regular plastic bags for composting"],
    icon := "\U{1F34E}", severity := Low,
    tips := [
      "Start a small compost bin for kitchen scraps",
      "Plan meals to reduce food waste",
      "Use vegetable scraps for homemade broth",
      "Consider worm composting for apartment living"])

  const RecyclableGuide: SafetyGuide := SafetyGuide(
    id := "recyclable-materials", title := "Recyclable Materials", category := "recyclable",
    description := "Proper preparation and disposal of recyclable items",
    doItems := [
      "Rinse containers before recycling",
      "Remove labels and caps when required",
      "Check local recycling guidelines",
      "Separate different material types",
      "Flatten cardboard and paper"],
    dontItems := [
      "Don't put dirty or contaminated items in recycling",
      "Avoid wish-cycling (hoping items are recyclable)",
      "Don't mix recyclables with regular trash",
      "Never put plastic bags in curbside recycling",
      "Don't recycle items smaller than a credit card"],
    icon := "\U{267B}\U{FE0F}", severity := Low,
    tips := [
      "Create a dedicated recycling station at home",
      "Learn your local recycling symbols and codes",
      "Consider upcycling items before recycling",
      "Support companies that use recycled materials"])

  const DryGuide: SafetyGuide := SafetyGuide(
    id := "dry-waste", title := "Dry Waste Management", category := "dry",
    description := "Handling non-recyclable dry materials",
    doItems := [
      "Separate by material type when possible",
      "Store in dry, covered containers",
      "Check for local specialized disposal programs",
      "Consider donation for usable items",
      "Use appropriate bag sizes for collection"],
    dontItems := [
      "Don't mix with wet or organic waste",
      "Avoid overfilling containers",
      "Don't dispose of large items in regular trash",
      "Never put hazardous materials in dry waste",
      "Don't use plastic bags for everything"],
    icon := "\U{1F4E6}", severity := Low,
    tips := [
      "Consider bulk purchasing to reduce packaging",
      "Look for items with minimal packaging",
      "Reuse containers and packaging when possible",
      "Support zero-waste stores and initiatives"])

  /** `DISPOSAL_SAFETY_GUIDES`, in the order they are written. */
  const Guides: seq<SafetyGuide> := [HazardousGuide, EWasteGuide, MedicalGuide, FoodGuide, RecyclableGuide, DryGuide]

  /** The six guides have six different ids. */
  lemma GuideIdsDistinct()
    ensures forall i, j :: 0 <= i < j < |Guides| ==> Guides[i].id != Guides[j].id
  {
    assert forall k :: 0 <= k < |Guides| ==> |Guides[k].id| > 0 && Guides[k].id[0] == "hemfrd"[k];
  }

  /** The six guides have six different categories, none of them "all". */
  lemma GuideCategoriesDiffer()
    ensures forall i, j :: 0 <= i < j < |Guides| ==> Guides[i].category != Guides[j].category
    ensures forall k :: 0 <= k < |Guides| ==> Guides[k].category != "all"
  {
    assert forall k :: 0 <= k < |Guides| ==> |Guides[k].category| > 0 && Guides[k].category[0] == "hemwrd"[k];
  }

  function OfCategory(category: string): SafetyGuide -> bool {
    (g: SafetyGuide) => g.category == category
  }

  /** The guides of `guides` with exactly that category, in order. */
  function WithCategory(guides: seq<SafetyGuide>, category: string): (r: seq<SafetyGuide>)
    ensures Seqs.IsSubsequence(r, guides)
  {
    Seqs.FilterIsSubsequence(OfCategory(category), guides);
    Seqs.Filter(OfCategory(category), guides)
  }

  /** A guide is kept exactly when it has that category. */
  lemma WithCategoryMembers(guides: seq<SafetyGuide>, category: string)
    ensures forall k :: 0 <= k < |WithCategory(guides, category)| ==> WithCategory(guides, category)[k].category == category
    ensures forall k :: 0 <= k < |guides| && guides[k].category == category ==> guides[k] in WithCategory(guides, category)
  {
    Seqs.FilterMembers(OfCategory(category), guides);
  }

  /** Where no two guides share a category, the category of a guide selects that guide alone. */
  lemma WithCategoryOfGuide(guides: seq<SafetyGuide>, k: nat)
    requires forall i, j :: 0 <= i < j < |guides| ==> guides[i].category != guides[j].category
    requires k < |guides|
    ensures WithCategory(guides, guides[k].category) == [guides[k]]
  {
    var c := guides[k].category;
    var r := WithCategory(guides, c);
    Seqs.FilterMembers(OfCategory(c), guides);
    assert guides[k] in r;
    forall i | 0 <= i < |r| ensures r[i] == guides[k] {
      var j :| 0 <= j < |guides| && guides[j] == r[i];
      assert guides[j].category == c;
    }
    OneCopy(guides, c);
  }

  /** At most one guide of a category survives when categories are distinct. */
  lemma OneCopy(guides: seq<SafetyGuide>, c: string)
    requires forall i, j :: 0 <= i < j < |guides| ==> guides[i].category != guides[j].category
    ensures |WithCategory(guides, c)| <= 1
  {
    var key := (g: SafetyGuide) => g.category;
    assert Seqs.DistinctBy(key, guides);
    Seqs.FilterDistinct(key, OfCategory(c), guides);
    Seqs.FilterMembers(OfCategory(c), guides);
    var r := WithCategory(guides, c);
    if |r| > 1 {
      Seqs.FirstTwoDiffer(key, r);
      assert false;
    }
  }

  /**
   * `getSafetyGuidesByCategory`: every guide for a missing or empty category or "all";
   * otherwise the guides of exactly that category, in order.
   */
  function GetSafetyGuidesByCategory(category: Option<string>): (r: seq<SafetyGuide>)
    ensures category.None? || category.value == "" || category.value == "all" ==> r == Guides
    ensures category.Some? && category.value != "" && category.value != "all" ==> r == WithCategory(Guides, category.value)
    ensures Seqs.IsSubsequence(r, Guides)
  {
    if category.None? || category.value == "" || category.value == "all" then
      Seqs.SubsequenceReflexive(Guides);
      Guides
    else
      WithCategory(Guides, category.value)
  }

  /** The category of a guide selects that guide alone. */
  lemma ByCategoryOfGuide(k: nat)
    requires k < |Guides|
    ensures GetSafetyGuidesByCategory(Some(Guides[k].category)) == [Guides[k]]
  {
    GuideCategoriesDiffer();
    WithCategoryOfGuide(Guides, k);
  }

  function HasId(id: string): SafetyGuide -> bool {
    (g: SafetyGuide) => g.id == id
  }

  /** The first guide of `guides` with that id, or none when no guide has it. */
  function FindById(guides: seq<SafetyGuide>, id: string): (r: Option<SafetyGuide>)
    ensures r.None? <==> forall k :: 0 <= k < |guides| ==> guides[k].id != id
    ensures r.Some? ==> r.value in guides && r.value.id == id
  {
    Seqs.Find(HasId(id), guides)
  }

  /** Where no two guides share an id, looking up a guide's id gives back that guide. */
  lemma FindByIdOfGuide(guides: seq<SafetyGuide>, k: nat)
    requires forall i, j :: 0 <= i < j < |guides| ==> guides[i].id != guides[j].id
    requires k < |guides|
    ensures FindById(guides, guides[k].id) == Some(guides[k])
  {
    var g := FindById(guides, guides[k].id).value;
    var j :| 0 <= j < |guides| && guides[j] == g;
  }

  /** `getSafetyGuideById`: the first guide with that id, or none when no guide has it. */
  function GetSafetyGuideById(id: string): (r: Option<SafetyGuide>)
    ensures r.None? <==> forall k :: 0 <= k < |Guides| ==> Guides[k].id != id
    ensures r.Some? ==> r.value in Guides && r.value.id == id
  {
    FindById(Guides, id)
  }

  /** Looking up a guide's id gives back that guide. */
  lemma ByIdOfGuide(k: nat)
    requires k < |Guides|
    ensures GetSafetyGuideById(Guides[k].id) == Some(Guides[k])
  {
    GuideIdsDistinct();
    FindByIdOfGuide(Guides, k);
  }

  /** `guides.map(guide => guide.category)`. */
  function CategoriesOf(guides: seq<SafetyGuide>): (r: seq<string>)
    ensures |r| == |guides| && forall k :: 0 <= k < |guides| ==> r[k] == guides[k].category
  {
    seq(|guides|, k requires 0 <= k < |guides| => guides[k].category)
  }

  /** The categories of the guides, in table order. */
  function GuideCategories(): (r: seq<string>)
    ensures |r| == |Guides| && forall k :: 0 <= k < |Guides| ==> r[k] == Guides[k].category
  {
    CategoriesOf(Guides)
  }

  /** `getCategories`: "all", then every guide category once, where it first occurs. */
  function GetCategories(): (r: seq<string>)
    ensures |r| >= 1 && r[0] == "all"
  {
    ["all"] + Seqs.Dedupe(GuideCategories())
  }

  /** The guide categories differ from each other and from "all". */
  lemma GuideCategoriesDistinct()
    ensures Seqs.Distinct(GuideCategories())
    ensures "all" !in GuideCategories()
  {
    GuideCategoriesDiffer();
  }

  /** The categories offered are "all" and the guide categories, each once, in table order. */
  lemma CategoriesListed()
    ensures GetCategories() == ["all"] + GuideCategories()
    ensures Seqs.Distinct(GetCategories())
  {
    GuideCategoriesDistinct();
    Seqs.DedupeOfDistinct(GuideCategories());
    PrependDistinct("all", GuideCategories());
  }

  lemma PrependDistinct(x: string, cs: seq<string>)
    requires Seqs.Distinct(cs) && x !in cs
    ensures Seqs.Distinct([x] + cs)
  {
    var r := [x] + cs;
    forall i, j | 0 <= i < j < |r| ensures r[i] != r[j] {
      assert r[j] == cs[j - 1];
      if i > 0 {
        assert r[i] == cs[i - 1];
      }
    }
  }
}
