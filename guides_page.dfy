/** The safety guides page: a category choice, then a text search over the chosen guides. */
module GuidesPage {
  import opened Wrappers
  import Seqs
  import Text
  import opened SafetyGuides

  /** Whether some line of `lines`, lowercased, contains `query`. */
  predicate SomeLineContains(lines: seq<string>, query: string) {
    exists k :: 0 <= k < |lines| && Text.Contains(Text.ToLower(lines[k]), query)
  }

  /**
   * Whether `guide` matches the lowercased `query`: its title or description, or one of its
   * do items, don't items or tips, lowercased, contains the query.
   */
  predicate GuideMatches(query: string, guide: SafetyGuide) {
    Text.Contains(Text.ToLower(guide.title), query)
    || Text.Contains(Text.ToLower(guide.description), query)
    || SomeLineContains(guide.doItems, query)
    || SomeLineContains(guide.dontItems, query)
    || SomeLineContains(guide.tips, query)
  }

  function MatchesQuery(query: string): SafetyGuide -> bool {
    (g: SafetyGuide) => GuideMatches(query, g)
  }

  /**
   * `filteredGuides`: all the given guides for a blank query; otherwise those matching the
   * lowercased (and untrimmed) query, in order.
   */
  function FilterGuides(guides: seq<SafetyGuide>, searchQuery: string): (r: seq<SafetyGuide>)
    ensures Text.Blank(searchQuery) ==> r == guides
    ensures Seqs.IsSubsequence(r, guides)
  {
    if Text.Trim(searchQuery) == "" then
      Seqs.SubsequenceReflexive(guides);
      guides
    else
      Seqs.FilterIsSubsequence(MatchesQuery(Text.ToLower(searchQuery)), guides);
      Seqs.Filter(MatchesQuery(Text.ToLower(searchQuery)), guides)
  }

  /** With a query that is not blank, a guide is shown exactly when it matches the lowercased query. */
  lemma FilterGuidesMembers(guides: seq<SafetyGuide>, searchQuery: string)
    requires !Text.Blank(searchQuery)
    ensures forall k :: 0 <= k < |FilterGuides(guides, searchQuery)| ==>
      GuideMatches(Text.ToLower(searchQuery), FilterGuides(guides, searchQuery)[k])
    ensures forall k :: 0 <= k < |guides| && GuideMatches(Text.ToLower(searchQuery), guides[k]) ==>
      guides[k] in FilterGuides(guides, searchQuery)
  {
    Seqs.FilterMembers(MatchesQuery(Text.ToLower(searchQuery)), guides);
  }

  /** Queries that differ only in letter case show the same guides. */
  lemma FilterGuidesIgnoresCase(guides: seq<SafetyGuide>, q1: string, q2: string)
    requires Text.ToLower(q1) == Text.ToLower(q2)
    requires Text.Blank(q1) <==> Text.Blank(q2)
    ensures FilterGuides(guides, q1) == FilterGuides(guides, q2)
  {
    Seqs.FilterExtensional(MatchesQuery(Text.ToLower(q1)), MatchesQuery(Text.ToLower(q2)), guides);
  }

  /** A second search narrows the first: searching the results again shows nothing new. */
  lemma SearchTwiceSame(guides: seq<SafetyGuide>, searchQuery: string)
    ensures FilterGuides(FilterGuides(guides, searchQuery), searchQuery) == FilterGuides(guides, searchQuery)
  {
    if Text.Trim(searchQuery) != "" {
      Seqs.FilterIdempotent(MatchesQuery(Text.ToLower(searchQuery)), guides);
    }
  }

  /** The page's state: the search text and the chosen category ("all" for every category). */
  class GuidesPageState {
    var searchQuery: string
    var selectedCategory: string

    constructor()
      ensures searchQuery == "" && selectedCategory == "all"
    {
      searchQuery := "";
      selectedCategory := "all";
    }

    /** `allGuides`: the guides of the chosen category. */
    function AllGuides(): seq<SafetyGuide>
      reads this`selectedCategory
    {
      GetSafetyGuidesByCategory(Some(selectedCategory))
    }

    /** The guides the page lists. */
    function FilteredGuides(): seq<SafetyGuide>
      reads this`searchQuery, this`selectedCategory
    {
      FilterGuides(AllGuides(), searchQuery)
    }

    /** Whether the Clear Filters button is shown: some guide is listed and a filter is set. */
    function ShowsClearFilters(): bool
      reads this`searchQuery, this`selectedCategory
    {
      |FilteredGuides()| > 0 && (searchQuery != "" || selectedCategory != "all")
    }

    method SetSearchQuery(query: string)
      modifies this`searchQuery
      ensures searchQuery == query && selectedCategory == old(selectedCategory)
    {
      searchQuery := query;
    }

    method SetSelectedCategory(category: string)
      modifies this`selectedCategory
      ensures selectedCategory == category && searchQuery == old(searchQuery)
    {
      selectedCategory := category;
    }

    /** Clear Filters: every guide is listed again and the button disappears. */
    method ClearFilters()
      modifies this`searchQuery, this`selectedCategory
      ensures searchQuery == "" && selectedCategory == "all"
      ensures FilteredGuides() == Guides && !ShowsClearFilters()
    {
      searchQuery := "";
      selectedCategory := "all";
      assert Text.Blank(searchQuery);
    }
  }

  /** Whether a guide has `category` and matches the lowercased `searchQuery`. */
  predicate Selected(category: string, searchQuery: string, guide: SafetyGuide) {
    guide.category == category && GuideMatches(Text.ToLower(searchQuery), guide)
  }

  /**
   * With a category other than "all" and a query that is not blank, the page lists exactly the
   * guides of that category that match the lowercased query.
   */
  lemma ListingWithBothFilters(page: GuidesPageState)
    requires page.selectedCategory != "" && page.selectedCategory != "all" && !Text.Blank(page.searchQuery)
    ensures forall k :: 0 <= k < |page.FilteredGuides()| ==>
      Selected(page.selectedCategory, page.searchQuery, page.FilteredGuides()[k])
    ensures forall k :: 0 <= k < |Guides| && Selected(page.selectedCategory, page.searchQuery, Guides[k]) ==>
      Guides[k] in page.FilteredGuides()
  {
    BothFilters(Guides, page.selectedCategory, page.searchQuery);
  }

  lemma BothFilters(guides: seq<SafetyGuide>, category: string, searchQuery: string)
    requires !Text.Blank(searchQuery)
    ensures forall k :: 0 <= k < |FilterGuides(WithCategory(guides, category), searchQuery)| ==>
      Selected(category, searchQuery, FilterGuides(WithCategory(guides, category), searchQuery)[k])
    ensures forall k :: 0 <= k < |guides| && Selected(category, searchQuery, guides[k]) ==>
      guides[k] in FilterGuides(WithCategory(guides, category), searchQuery)
  {
    var byCategory := WithCategory(guides, category);
    WithCategoryMembers(guides, category);
    FilterGuidesMembers(byCategory, searchQuery);
    var r := FilterGuides(byCategory, searchQuery);
    forall k | 0 <= k < |r| ensures r[k].category == category {
      var j :| 0 <= j < |byCategory| && byCategory[j] == r[k] by {
        Seqs.FilterMembers(MatchesQuery(Text.ToLower(searchQuery)), byCategory);
      }
    }
    forall k | 0 <= k < |guides| && Selected(category, searchQuery, guides[k]) ensures guides[k] in r {
      var j :| 0 <= j < |byCategory| && byCategory[j] == guides[k];
    }
  }

  /** The listed guides always come from the table, in table order. */
  lemma ListedFromTable(page: GuidesPageState)
    ensures Seqs.IsSubsequence(page.FilteredGuides(), Guides)
  {
    Seqs.SubsequenceTransitive(page.FilteredGuides(), page.AllGuides(), Guides);
  }
}
