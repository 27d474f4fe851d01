/**
 * The disposal-guides hook: the rules loaded for a region, narrowed by a search text and by
 * a set of selected categories.
 */
module DisposalGuides {
  import opened Categories
  import opened DisposalRules
  import Seqs
  import Text

  /** Whether the lowercased title, description or category of `rule` contains `query`. */
  predicate MatchesText(query: string, rule: DisposalRule) {
    Text.Contains(Text.ToLower(rule.title), query)
    || Text.Contains(Text.ToLower(rule.description), query)
    || Text.Contains(Text.ToLower(Key(rule.category)), query)
  }

  function MatchesTextOf(query: string): DisposalRule -> bool {
    (rule: DisposalRule) => MatchesText(query, rule)
  }

  function InSelection(selected: seq<WasteCategory>): DisposalRule -> bool {
    (rule: DisposalRule) => rule.category in selected
  }

  /**
   * `filteredRules`: a query that is not blank keeps the rules matching its lowercased (and
   * untrimmed) text; then a non-empty selection keeps the rules of the selected categories.
   */
  function FilterRules(rules: seq<DisposalRule>, query: string, selected: seq<WasteCategory>): (r: seq<DisposalRule>)
    ensures Seqs.IsSubsequence(r, rules)
  {
    var byText := if Text.Trim(query) != "" then Seqs.Filter(MatchesTextOf(Text.ToLower(query)), rules) else rules;
    assert Seqs.IsSubsequence(byText, rules) by {
      Seqs.FilterIsSubsequence(MatchesTextOf(Text.ToLower(query)), rules);
      Seqs.SubsequenceReflexive(rules);
    }
    if |selected| > 0 then
      Seqs.FilterIsSubsequence(InSelection(selected), byText);
      Seqs.SubsequenceTransitive(Seqs.Filter(InSelection(selected), byText), byText, rules);
      Seqs.Filter(InSelection(selected), byText)
    else
      byText
  }

  /** Whether `filteredRules` keeps `rule`. */
  predicate Kept(query: string, selected: seq<WasteCategory>, rule: DisposalRule) {
    (Text.Blank(query) || MatchesText(Text.ToLower(query), rule))
    && (selected == [] || rule.category in selected)
  }

  function KeptBy(query: string, selected: seq<WasteCategory>): DisposalRule -> bool {
    (rule: DisposalRule) => Kept(query, selected, rule)
  }

  /** The two filters in a row are one filter by `Kept`. */
  lemma FilterRulesIsOneFilter(rules: seq<DisposalRule>, query: string, selected: seq<WasteCategory>)
    ensures FilterRules(rules, query, selected) == Seqs.Filter(KeptBy(query, selected), rules)
  {
    var text := MatchesTextOf(Text.ToLower(query));
    var sel := InSelection(selected);
    var kept := KeptBy(query, selected);
    if Text.Trim(query) != "" {
      var byText := Seqs.Filter(text, rules);
      assert FilterRules(rules, query, selected) == if |selected| > 0 then Seqs.Filter(sel, byText) else byText;
      if |selected| > 0 {
        assert forall x :: kept(x) == (text(x) && sel(x));
        Seqs.FilterFilter(text, sel, kept, rules);
      } else {
        assert forall x :: text(x) == kept(x);
        Seqs.FilterExtensional(text, kept, rules);
      }
    } else {
      assert FilterRules(rules, query, selected) == if |selected| > 0 then Seqs.Filter(sel, rules) else rules;
      if |selected| > 0 {
        assert forall x :: sel(x) == kept(x);
        Seqs.FilterExtensional(sel, kept, rules);
      } else {
        assert forall k :: 0 <= k < |rules| ==> kept(rules[k]);
      }
    }
  }

  /** A loaded rule is shown exactly when `Kept` holds for it. */
  lemma FilterRulesMembers(rules: seq<DisposalRule>, query: string, selected: seq<WasteCategory>)
    ensures forall k :: 0 <= k < |FilterRules(rules, query, selected)| ==>
      Kept(query, selected, FilterRules(rules, query, selected)[k])
    ensures forall k :: 0 <= k < |rules| && Kept(query, selected, rules[k]) ==>
      rules[k] in FilterRules(rules, query, selected)
  {
    FilterRulesIsOneFilter(rules, query, selected);
    Seqs.FilterMembers(KeptBy(query, selected), rules);
  }

  /** A blank query filters nothing by text. */
  lemma BlankQueryIgnored(rules: seq<DisposalRule>, query: string, selected: seq<WasteCategory>)
    requires Text.Blank(query)
    ensures FilterRules(rules, query, selected) == FilterRules(rules, "", selected)
  {
    assert Text.Blank("");
  }

  /** `hasActiveFilters`. */
  predicate ActiveFilters(query: string, selected: seq<WasteCategory>) {
    Text.Trim(query) != "" || |selected| > 0
  }

  /** Without active filters every loaded rule is shown. */
  lemma InactiveShowsAll(rules: seq<DisposalRule>, query: string, selected: seq<WasteCategory>)
    requires !ActiveFilters(query, selected)
    ensures FilterRules(rules, query, selected) == rules
  {
  }

  /** Only the members of the selection matter, not their order or repetition. */
  lemma SelectionByMembers(rules: seq<DisposalRule>, query: string, s1: seq<WasteCategory>, s2: seq<WasteCategory>)
    requires forall c :: c in s1 <==> c in s2
    ensures FilterRules(rules, query, s1) == FilterRules(rules, query, s2)
  {
    if |s1| > 0 {
      assert s1[0] in s2;
    }
    if |s2| > 0 {
      assert s2[0] in s1;
    }
    var byText := if Text.Trim(query) != "" then Seqs.Filter(MatchesTextOf(Text.ToLower(query)), rules) else rules;
    Seqs.FilterExtensional(InSelection(s1), InSelection(s2), byText);
  }

  function OtherThan(c: WasteCategory): WasteCategory -> bool {
    (x: WasteCategory) => x != c
  }

  /** `handleCategoryToggle`: a selected category is removed, any other is appended. */
  function Toggle(selected: seq<WasteCategory>, c: WasteCategory): seq<WasteCategory> {
    if c in selected then Seqs.Filter(OtherThan(c), selected) else selected + [c]
  }

  /** Toggling flips whether `c` is selected and leaves every other category as it was. */
  lemma ToggleMembers(selected: seq<WasteCategory>, c: WasteCategory)
    ensures c in Toggle(selected, c) <==> c !in selected
    ensures forall x :: x != c ==> (x in Toggle(selected, c) <==> x in selected)
  {
    Seqs.FilterMembers(OtherThan(c), selected);
  }

  /** Toggling twice selects the same categories again; an unselected one leaves no trace at all. */
  lemma ToggleTwice(selected: seq<WasteCategory>, c: WasteCategory)
    ensures forall x :: x in Toggle(Toggle(selected, c), c) <==> x in selected
    ensures c !in selected ==> Toggle(Toggle(selected, c), c) == selected
  {
    ToggleMembers(selected, c);
    ToggleMembers(Toggle(selected, c), c);
    if c !in selected {
      assert Seqs.Filter(OtherThan(c), selected) == selected;
      Seqs.FilterConcat(OtherThan(c), selected, [c]);
    }
  }

  /** Toggling a category twice shows the same rules again. */
  lemma ToggleTwiceSameRules(rules: seq<DisposalRule>, query: string, selected: seq<WasteCategory>, c: WasteCategory)
    ensures FilterRules(rules, query, Toggle(Toggle(selected, c), c)) == FilterRules(rules, query, selected)
  {
    ToggleTwice(selected, c);
    SelectionByMembers(rules, query, Toggle(Toggle(selected, c), c), selected);
  }

  /** Toggling keeps the selection free of repeats. */
  lemma ToggleDistinct(selected: seq<WasteCategory>, c: WasteCategory)
    requires Seqs.DistinctBy((x: WasteCategory) => x, selected)
    ensures Seqs.DistinctBy((x: WasteCategory) => x, Toggle(selected, c))
  {
    if c in selected {
      Seqs.FilterDistinct((x: WasteCategory) => x, OtherThan(c), selected);
    }
  }

  /** The hook's state. */
  class DisposalGuidesState {
    var rules: seq<DisposalRule>
    var loading: bool
    var searchQuery: string
    var selectedCategories: seq<WasteCategory>

    constructor()
      ensures rules == [] && loading && searchQuery == "" && selectedCategories == []
    {
      rules := [];
      loading := true;
      searchQuery := "";
      selectedCategories := [];
    }

    /** `loadDisposalRules`: the rules for the selected region, then loading ends. */
    method LoadDisposalRules(region: string)
      modifies this`rules, this`loading
      ensures rules == ByRegion(region) && !loading
    {
      rules := ByRegion(region);
      loading := false;
    }

    /** `setSearchQuery`. */
    method SetSearchQuery(query: string)
      modifies this`searchQuery
      ensures searchQuery == query
    {
      searchQuery := query;
    }

    /** The rules the hook hands out. */
    function FilteredRules(): seq<DisposalRule>
      reads this`rules, this`searchQuery, this`selectedCategories
    {
      FilterRules(rules, searchQuery, selectedCategories)
    }

    function HasActiveFilters(): bool
      reads this`searchQuery, this`selectedCategories
    {
      ActiveFilters(searchQuery, selectedCategories)
    }

    /** `handleCategoryToggle`. */
    method HandleCategoryToggle(c: WasteCategory)
      modifies this`selectedCategories
      ensures selectedCategories == Toggle(old(selectedCategories), c)
      ensures c in selectedCategories <==> c !in old(selectedCategories)
      ensures forall x :: x != c ==> (x in selectedCategories <==> x in old(selectedCategories))
    {
      ToggleMembers(selectedCategories, c);
      selectedCategories := Toggle(selectedCategories, c);
    }

    /** `clearFilters`: no filter is active any more and every loaded rule is shown. */
    method ClearFilters()
      modifies this`searchQuery, this`selectedCategories
      ensures searchQuery == "" && selectedCategories == []
      ensures !HasActiveFilters() && FilteredRules() == rules
    {
      searchQuery := "";
      selectedCategories := [];
      InactiveShowsAll(rules, searchQuery, selectedCategories);
    }
  }
}
