/** The "My Items" page: the category filter, the per-category counts and the shown next reminder. */
module ItemsPage {
  import opened Wrappers
  import opened Categories
  import opened Storage
  import Seqs
  import Dashboard

  /** The items of category `c`. */
  function InCategory(c: WasteCategory): Item -> bool {
    (i: Item) => i.category == c
  }

  /**
   * `filteredItems`: every item when "all" is selected (`None`), otherwise the items of the
   * selected category, in order.
   */
  function FilteredItems(items: seq<Item>, selected: Option<WasteCategory>): (r: seq<Item>)
    ensures selected.None? ==> r == items
    ensures Seqs.IsSubsequence(r, items)
  {
    if selected.None? then
      Seqs.SubsequenceReflexive(items);
      items
    else
      Seqs.FilterIsSubsequence(InCategory(selected.value), items);
      Seqs.Filter(InCategory(selected.value), items)
  }

  /** With a category selected, exactly the items of that category are shown. */
  lemma FilteredItemsOfCategory(items: seq<Item>, c: WasteCategory)
    ensures forall k :: 0 <= k < |FilteredItems(items, Some(c))| ==> FilteredItems(items, Some(c))[k].category == c
    ensures forall k :: 0 <= k < |items| && items[k].category == c ==> items[k] in FilteredItems(items, Some(c))
  {
    Seqs.FilterMembers(InCategory(c), items);
  }

  /** `getCategoryCount(c)`: how many items have category `c`. */
  function CategoryCount(items: seq<Item>, c: WasteCategory): (n: nat)
    ensures n <= |items|
    ensures n == |FilteredItems(items, Some(c))|
  {
    Seqs.Count(InCategory(c), items)
  }

  /** The counts of the categories in `cs`, added up. */
  function SumCounts(items: seq<Item>, cs: seq<WasteCategory>): nat {
    if cs == [] then 0 else CategoryCount(items, cs[0]) + SumCounts(items, cs[1..])
  }

  /** How many times `c` occurs in `cs`. */
  function Occurrences(cs: seq<WasteCategory>, c: WasteCategory): nat {
    if cs == [] then 0 else (if cs[0] == c then 1 else 0) + Occurrences(cs[1..], c)
  }

  /** One more item adds one to the count of each occurrence of its category. */
  lemma {:induction false} SumCountsCons(x: Item, rest: seq<Item>, cs: seq<WasteCategory>)
    ensures SumCounts([x] + rest, cs) == SumCounts(rest, cs) + Occurrences(cs, x.category)
  {
    assert ([x] + rest)[1..] == rest;
    if cs != [] {
      SumCountsCons(x, rest, cs[1..]);
    }
  }

  /** The six per-category counts add up to the number of items. */
  lemma {:induction false} CategoryCountsAddUp(items: seq<Item>)
    ensures SumCounts(items, AllCategories) == |items|
  {
    if items == [] {
      SumCountsEmpty(AllCategories);
    } else {
      CategoryCountsAddUp(items[1..]);
      assert items == [items[0]] + items[1..];
      SumCountsCons(items[0], items[1..], AllCategories);
      OccursOnce(items[0].category);
    }
  }

  lemma {:induction false} SumCountsEmpty(cs: seq<WasteCategory>)
    ensures SumCounts([], cs) == 0
  {
    if cs != [] {
      SumCountsEmpty(cs[1..]);
    }
  }

  /** Every category is listed once in the table. */
  lemma OccursOnce(c: WasteCategory)
    ensures Occurrences(AllCategories, c) == 1
  {
  }

  /** The categories the filter offers besides "all": those with at least one item, in table order. */
  function OfferedCategories(items: seq<Item>): (r: seq<WasteCategory>)
    ensures |r| <= |AllCategories|
  {
    Seqs.Filter((c: WasteCategory) => CategoryCount(items, c) > 0, AllCategories)
  }

  /** A category is offered exactly when some item has it. */
  lemma OfferedIffPresent(items: seq<Item>, c: WasteCategory)
    ensures c in OfferedCategories(items) <==> exists k :: 0 <= k < |items| && items[k].category == c
  {
    var p := (c: WasteCategory) => CategoryCount(items, c) > 0;
    Seqs.FilterMembers(p, AllCategories);
    AllCategoriesComplete(c);
    FilteredItemsOfCategory(items, c);
    if exists k :: 0 <= k < |items| && items[k].category == c {
      var k :| 0 <= k < |items| && items[k].category == c;
      assert items[k] in FilteredItems(items, Some(c));
    }
    if CategoryCount(items, c) > 0 {
      var r := FilteredItems(items, Some(c));
      assert r[0].category == c;
      Seqs.FilterMembers(InCategory(c), items);
    }
  }

  /**
   * The next reminder the item card shows: the stored one, or else `interval` days of
   * 86,400,000 ms from the moment the page renders.
   */
  function NextReminder(item: Item, now: Time): (t: Time)
    ensures item.nextReminder.Some? ==> t == item.nextReminder.value
  {
    match item.nextReminder
    case Some(t) => t
    case None => now + item.interval * 24 * 60 * 60 * 1000
  }

  /**
   * Without a stored next reminder the items page and the dashboard disagree: the dashboard
   * counts the interval from when the item was added, this page from the current time.
   */
  lemma NextReminderAgainstDashboard(item: Item, now: Time)
    ensures item.nextReminder.Some? ==> NextReminder(item, now) == Dashboard.DisposalAt(item)
    ensures item.nextReminder.None? ==> NextReminder(item, now) - Dashboard.DisposalAt(item) == now - item.createdAt
  {
  }
}
