/**
 * The list edits of the parsed-items review card: every edit builds a new list from the
 * current one and hands it back to the page.
 */
module ParsedItems {
  import opened Wrappers
  import opened Categories
  import Constants
  import Seqs

  /** An item recognised on a receipt. `quantity` is the recognised text ("2 kg"). */
  datatype ParsedItem = ParsedItem(
    id: string, name: string, quantity: string, category: WasteCategory,
    interval: int, confidence: real, isEditing: Option<bool>)

  /** `Partial<ParsedItem>`: the fields an edit sets; absent fields are kept. */
  datatype ParsedPatch = ParsedPatch(
    id: Option<string>, name: Option<string>, quantity: Option<string>, category: Option<WasteCategory>,
    interval: Option<int>, confidence: Option<real>, isEditing: Option<Option<bool>>)

  const NoChange: ParsedPatch := ParsedPatch(None, None, None, None, None, None, None)

  /** `{ ...item, ...updates }`. */
  function Apply(item: ParsedItem, p: ParsedPatch): ParsedItem {
    ParsedItem(p.id.GetOr(item.id), p.name.GetOr(item.name), p.quantity.GetOr(item.quantity),
               p.category.GetOr(item.category), p.interval.GetOr(item.interval),
               p.confidence.GetOr(item.confidence), p.isEditing.GetOr(item.isEditing))
  }

  /** Whether the card shows the item's editor (`isEditing` absent counts as false). */
  function Editing(item: ParsedItem): bool {
    item.isEditing == Some(true)
  }

  /** `updateItem(id, updates)`: every item with that id is patched; the rest are kept. */
  function UpdateItem(items: seq<ParsedItem>, id: string, p: ParsedPatch): (r: seq<ParsedItem>)
    ensures |r| == |items|
    ensures forall k :: 0 <= k < |items| && items[k].id == id ==> r[k] == Apply(items[k], p)
    ensures forall k :: 0 <= k < |items| && items[k].id != id ==> r[k] == items[k]
  {
    if items == [] then []
    else [if items[0].id == id then Apply(items[0], p) else items[0]] + UpdateItem(items[1..], id, p)
  }

  /** An id no item has leaves the list as it is. */
  lemma UpdateItemAbsent(items: seq<ParsedItem>, id: string, p: ParsedPatch)
    requires forall k :: 0 <= k < |items| ==> items[k].id != id
    ensures UpdateItem(items, id, p) == items
  {
  }

  /** Applying the same edit twice is applying it once. */
  lemma UpdateItemTwice(items: seq<ParsedItem>, id: string, p: ParsedPatch)
    requires p.id.None? || p.id == Some(id)
    ensures UpdateItem(UpdateItem(items, id, p), id, p) == UpdateItem(items, id, p)
  {
    var once := UpdateItem(items, id, p);
    assert forall k :: 0 <= k < |items| ==> once[k].id == items[k].id;
  }

  /** `toggleEdit(id)`: the new flag is the negation of the first matching item's flag. */
  function ToggleEdit(items: seq<ParsedItem>, id: string): (r: seq<ParsedItem>)
    ensures |r| == |items|
    ensures forall k :: 0 <= k < |items| && items[k].id != id ==> r[k] == items[k]
  {
    var first := Seqs.Find((i: ParsedItem) => i.id == id, items);
    var editing := first.Some? && Editing(first.value);
    UpdateItem(items, id, NoChange.(isEditing := Some(Some(!editing))))
  }

  /** With unique ids, `toggleEdit` flips the editor of exactly that item and changes nothing else. */
  lemma ToggleEditFlips(items: seq<ParsedItem>, id: string, k: nat)
    requires Seqs.DistinctBy((i: ParsedItem) => i.id, items)
    requires k < |items| && items[k].id == id
    ensures Editing(ToggleEdit(items, id)[k]) == !Editing(items[k])
    ensures ToggleEdit(items, id)[k] == items[k].(isEditing := Some(!Editing(items[k])))
  {
    var f := (i: ParsedItem) => i.id == id;
    var first := Seqs.Find(f, items);
    var j :| 0 <= j < |items| && items[j] == first.value && f(items[j]) && forall i :: 0 <= i < j ==> !f(items[i]);
    assert j == k;
  }

  /** Toggling twice restores whether every item is being edited. */
  lemma ToggleEditTwice(items: seq<ParsedItem>, id: string)
    requires Seqs.DistinctBy((i: ParsedItem) => i.id, items)
    ensures |ToggleEdit(ToggleEdit(items, id), id)| == |items|
    ensures forall k :: 0 <= k < |items| ==> Editing(ToggleEdit(ToggleEdit(items, id), id)[k]) == Editing(items[k])
  {
    var once := ToggleEdit(items, id);
    forall k | 0 <= k < |items| && items[k].id == id
      ensures once[k].id == items[k].id
    {
      ToggleEditFlips(items, id, k);
    }
    assert Seqs.DistinctBy((i: ParsedItem) => i.id, once) by {
      forall a, b | 0 <= a < b < |once| ensures once[a].id != once[b].id {
        assert items[a].id != items[b].id;
      }
    }
    forall k | 0 <= k < |items| && items[k].id == id
      ensures Editing(ToggleEdit(once, id)[k]) == Editing(items[k])
    {
      ToggleEditFlips(items, id, k);
      ToggleEditFlips(once, id, k);
    }
  }

  /** The items without that id. */
  function OtherThan(id: string): ParsedItem -> bool {
    (i: ParsedItem) => i.id != id
  }

  /** `removeItem(id)`. */
  function RemoveItem(items: seq<ParsedItem>, id: string): (r: seq<ParsedItem>)
    ensures Seqs.IsSubsequence(r, items)
  {
    Seqs.FilterIsSubsequence(OtherThan(id), items);
    Seqs.Filter(OtherThan(id), items)
  }

  /** `removeItem` drops every item with that id and keeps every other item. */
  lemma RemoveItemEffect(items: seq<ParsedItem>, id: string)
    ensures forall k :: 0 <= k < |RemoveItem(items, id)| ==> RemoveItem(items, id)[k].id != id
    ensures forall k :: 0 <= k < |items| && items[k].id != id ==> items[k] in RemoveItem(items, id)
    ensures |RemoveItem(items, id)| < |items| <==> exists k :: 0 <= k < |items| && items[k].id == id
  {
    Seqs.FilterMembers(OtherThan(id), items);
    RemoveShrinks(items, id);
  }

  lemma {:induction false} RemoveShrinks(items: seq<ParsedItem>, id: string)
    ensures |RemoveItem(items, id)| < |items| <==> exists k :: 0 <= k < |items| && items[k].id == id
  {
    if items != [] {
      RemoveShrinks(items[1..], id);
      if exists k :: 0 <= k < |items[1..]| && items[1..][k].id == id {
        var k :| 0 <= k < |items[1..]| && items[1..][k].id == id;
        assert items[k + 1].id == id;
      }
      if exists k :: 0 <= k < |items| && items[k].id == id {
        var k :| 0 <= k < |items| && items[k].id == id;
        if k > 0 {
          assert items[1..][k - 1].id == id;
        }
      }
    }
  }

  /** An item with its category's default interval. */
  function WithDefaultInterval(item: ParsedItem): ParsedItem {
    item.(interval := Constants.DefaultInterval(item.category))
  }

  /** `applyDefaultsByCategory()`: every interval becomes its category's default. */
  function ApplyDefaultsByCategory(items: seq<ParsedItem>): (r: seq<ParsedItem>)
    ensures |r| == |items|
    ensures forall k :: 0 <= k < |items| ==>
      r[k].interval == Constants.DefaultInterval(items[k].category) && r[k].interval >= 1
    ensures forall k :: 0 <= k < |items| ==> r[k].(interval := items[k].interval) == items[k]
  {
    if items == [] then [] else [WithDefaultInterval(items[0])] + ApplyDefaultsByCategory(items[1..])
  }

  /** Applying the defaults a second time changes nothing. */
  lemma {:induction false} ApplyDefaultsIdempotent(items: seq<ParsedItem>)
    ensures ApplyDefaultsByCategory(ApplyDefaultsByCategory(items)) == ApplyDefaultsByCategory(items)
  {
    if items != [] {
      ApplyDefaultsIdempotent(items[1..]);
      assert ApplyDefaultsByCategory(items)[1..] == ApplyDefaultsByCategory(items[1..]);
    }
  }

  /** Choosing a category in the editor also resets that item's interval to the category's default. */
  function ChooseCategory(items: seq<ParsedItem>, id: string, c: WasteCategory): (r: seq<ParsedItem>)
    ensures |r| == |items|
    ensures forall k :: 0 <= k < |items| && items[k].id == id ==>
      r[k] == WithDefaultInterval(items[k].(category := c))
    ensures forall k :: 0 <= k < |items| && items[k].id != id ==> r[k] == items[k]
  {
    UpdateItem(items, id, NoChange.(category := Some(c), interval := Some(Constants.DefaultInterval(c))))
  }

  /** After choosing a category, applying the defaults leaves the chosen item as it is. */
  lemma ChooseCategoryThenDefaults(items: seq<ParsedItem>, id: string, c: WasteCategory, k: nat)
    requires k < |items| && items[k].id == id
    ensures ApplyDefaultsByCategory(ChooseCategory(items, id, c))[k] == ChooseCategory(items, id, c)[k]
  {
  }
}
