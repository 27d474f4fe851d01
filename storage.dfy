/**
 * The local store of items, reminders and settings (`StorageService`).
 *
 * Five keys of the browser's local storage are modelled as five optional fields: `None` is
 * a key that is absent. Each mutator reads a whole list, changes it, and writes it back;
 * a write is `localStorage.setItem`, and each write may throw on its own (storage full or
 * disabled), as a failure schedule given to the store decides. Fresh identifiers and clock
 * readings, which the source draws from `generateId()` and `new Date()`, are parameters.
 */
module Storage {
  import opened Wrappers
  import opened Categories
  import Seqs

  type Id = string

  /** Milliseconds since the epoch. */
  type Time = int

  const MsPerHour: int := 60 * 60 * 1000
  const MsPerDay: int := 24 * MsPerHour

  /**
   * `t` moved by `n` calendar days (`setDate(getDate() + n)`, date-fns `addDays`); the model
   * has no daylight-saving shifts, so a calendar day is 24 hours.
   */
  function AddDays(t: Time, n: int): Time {
    t + n * MsPerDay
  }

  /** date-fns `addHours`: `t` plus `h` elapsed hours. */
  function AddHours(t: Time, h: int): Time {
    t + h * MsPerHour
  }

  datatype Status = Upcoming | Overdue | Completed

  /** `StoredItem`. */
  datatype Item = Item(
    id: Id, name: string, category: WasteCategory, quantity: real, unit: string,
    interval: int, createdAt: Time, lastReminder: Option<Time>, nextReminder: Option<Time>)

  /** `Omit<StoredItem, "id" | "createdAt">`: what a caller hands to the store. */
  datatype ItemInput = ItemInput(
    name: string, category: WasteCategory, quantity: real, unit: string,
    interval: int, lastReminder: Option<Time>, nextReminder: Option<Time>)

  /** `StoredReminder`. */
  datatype Reminder = Reminder(
    id: Id, itemId: Id, itemName: string, category: WasteCategory,
    dueDate: Time, status: Status, createdAt: Time)

  /** `Partial<StoredItem>`: the fields present in the patch replace the item's. */
  datatype ItemPatch = ItemPatch(
    id: Option<Id>, name: Option<string>, category: Option<WasteCategory>, quantity: Option<real>,
    unit: Option<string>, interval: Option<int>, createdAt: Option<Time>,
    lastReminder: Option<Option<Time>>, nextReminder: Option<Option<Time>>)

  /** `Partial<StoredReminder>`. */
  datatype ReminderPatch = ReminderPatch(
    id: Option<Id>, itemId: Option<Id>, itemName: Option<string>, category: Option<WasteCategory>,
    dueDate: Option<Time>, status: Option<Status>, createdAt: Option<Time>)

  /** Settings are an opaque record of named values. */
  type Settings = map<string, string>

  /** One `generateId()` result together with the `new Date()` reading taken beside it. */
  datatype Fresh = Fresh(id: Id, at: Time)

  const DefaultCity: string := "Bengaluru, Karnataka"
  const OnboardingDone: string := "completed"

  /** `{ ...item, id, createdAt }`. */
  function NewItem(input: ItemInput, gen: Fresh): Item {
    Item(gen.id, input.name, input.category, input.quantity, input.unit,
         input.interval, gen.at, input.lastReminder, input.nextReminder)
  }

  /** The items `saveMultipleItems` creates, one per input, in input order. */
  function NewItems(inputs: seq<ItemInput>, gen: seq<Fresh>): (r: seq<Item>)
    requires |gen| == |inputs|
  {
    seq(|inputs|, k requires 0 <= k < |inputs| => NewItem(inputs[k], gen[k]))
  }

  /**
   * The reminder `createReminder` builds for `item`: due `item.interval` days after the clock
   * reading taken when the reminder is created (not after `item.createdAt`).
   */
  function NewReminder(item: Item, gen: Fresh): Reminder {
    Reminder(gen.id, item.id, item.name, item.category, AddDays(gen.at, item.interval), Upcoming, gen.at)
  }

  /** One reminder per item, in the same order. */
  function NewReminders(items: seq<Item>, gen: seq<Fresh>): (r: seq<Reminder>)
    requires |gen| == |items|
    ensures |r| == |items|
    ensures forall k :: 0 <= k < |items| ==> r[k].itemId == items[k].id
    ensures forall k :: 0 <= k < |items| ==> r[k].id == gen[k].id && r[k].status == Upcoming
  {
    if items == [] then []
    else NewReminders(items[..|items| - 1], gen[..|items| - 1])
         + [NewReminder(items[|items| - 1], gen[|items| - 1])]
  }

  function ApplyItemPatch(item: Item, p: ItemPatch): Item {
    Item(p.id.GetOr(item.id), p.name.GetOr(item.name), p.category.GetOr(item.category),
         p.quantity.GetOr(item.quantity), p.unit.GetOr(item.unit), p.interval.GetOr(item.interval),
         p.createdAt.GetOr(item.createdAt), p.lastReminder.GetOr(item.lastReminder),
         p.nextReminder.GetOr(item.nextReminder))
  }

  function ApplyReminderPatch(r: Reminder, p: ReminderPatch): Reminder {
    Reminder(p.id.GetOr(r.id), p.itemId.GetOr(r.itemId), p.itemName.GetOr(r.itemName),
             p.category.GetOr(r.category), p.dueDate.GetOr(r.dueDate), p.status.GetOr(r.status),
             p.createdAt.GetOr(r.createdAt))
  }

  /** The list `updateItem(id, patch)` writes: the first item with that id is patched. */
  function PatchItems(items: seq<Item>, id: Id, patch: ItemPatch): seq<Item> {
    Seqs.ReplaceFirst((i: Item) => i.id == id, (i: Item) => ApplyItemPatch(i, patch), items)
  }

  /** The list `updateReminder(id, patch)` writes: the first reminder with that id is patched. */
  function PatchReminders(reminders: seq<Reminder>, id: Id, patch: ReminderPatch): seq<Reminder> {
    Seqs.ReplaceFirst((r: Reminder) => r.id == id, (r: Reminder) => ApplyReminderPatch(r, patch), reminders)
  }

  predicate HasItem(items: seq<Item>, id: Id) {
    exists k :: 0 <= k < |items| && items[k].id == id
  }

  predicate HasReminder(reminders: seq<Reminder>, id: Id) {
    exists k :: 0 <= k < |reminders| && reminders[k].id == id
  }

  function ItemKey(i: Item): Id { i.id }

  function ReminderKey(r: Reminder): Id { r.id }

  /** The test `item => item.id !== id`. */
  function OtherThan(id: Id): Item -> bool {
    (i: Item) => i.id != id
  }

  /** The test `reminder => reminder.itemId !== itemId`. */
  function RefersElsewhere(itemId: Id): Reminder -> bool {
    (r: Reminder) => r.itemId != itemId
  }

  /** `items.filter(item => item.id !== id)`. */
  function WithoutItem(items: seq<Item>, id: Id): seq<Item> {
    Seqs.Filter(OtherThan(id), items)
  }

  /** `reminders.filter(reminder => reminder.itemId !== itemId)`. */
  function WithoutRemindersOf(reminders: seq<Reminder>, itemId: Id): seq<Reminder> {
    Seqs.Filter(RefersElsewhere(itemId), reminders)
  }

  /** How many reminders refer to item `itemId`. */
  function RemindersFor(reminders: seq<Reminder>, itemId: Id): nat {
    if reminders == [] then 0
    else (if reminders[0].itemId == itemId then 1 else 0) + RemindersFor(reminders[1..], itemId)
  }

  predicate ItemIdsDistinct(items: seq<Item>) {
    Seqs.DistinctBy(ItemKey, items)
  }

  predicate ReminderIdsDistinct(reminders: seq<Reminder>) {
    Seqs.DistinctBy(ReminderKey, reminders)
  }

  predicate RemindersReferToItems(items: seq<Item>, reminders: seq<Reminder>) {
    forall k :: 0 <= k < |reminders| ==> HasItem(items, reminders[k].itemId)
  }

  predicate OneReminderEach(items: seq<Item>, reminders: seq<Reminder>) {
    forall k :: 0 <= k < |items| ==> RemindersFor(reminders, items[k].id) == 1
  }

  /**
   * The relation between the two lists that item creation and cascade deletion maintain:
   * identifiers are unique, every reminder refers to a stored item, and every item has
   * exactly one reminder.
   */
  predicate Consistent(items: seq<Item>, reminders: seq<Reminder>) {
    && ItemIdsDistinct(items)
    && ReminderIdsDistinct(reminders)
    && RemindersReferToItems(items, reminders)
    && OneReminderEach(items, reminders)
  }

  lemma {:induction false} RemindersForConcat(a: seq<Reminder>, b: seq<Reminder>, itemId: Id)
    ensures RemindersFor(a + b, itemId) == RemindersFor(a, itemId) + RemindersFor(b, itemId)
  {
    if a == [] {
      assert a + b == b;
    } else {
      assert (a + b)[1..] == a[1..] + b;
      RemindersForConcat(a[1..], b, itemId);
    }
  }

  lemma {:induction false} RemindersForNone(reminders: seq<Reminder>, itemId: Id)
    requires forall k :: 0 <= k < |reminders| ==> reminders[k].itemId != itemId
    ensures RemindersFor(reminders, itemId) == 0
  {
    if reminders != [] {
      RemindersForNone(reminders[1..], itemId);
    }
  }

  /** Dropping the reminders of one item does not change how many another item has. */
  lemma {:induction false} RemindersForWithout(reminders: seq<Reminder>, itemId: Id, other: Id)
    requires other != itemId
    ensures RemindersFor(WithoutRemindersOf(reminders, itemId), other) == RemindersFor(reminders, other)
  {
    if reminders != [] {
      RemindersForWithout(reminders[1..], itemId, other);
      if reminders[0].itemId != itemId {
        assert WithoutRemindersOf(reminders, itemId) == [reminders[0]] + WithoutRemindersOf(reminders[1..], itemId);
      }
    }
  }

  lemma {:induction false} SameItemIdsSameCount(a: seq<Reminder>, b: seq<Reminder>, itemId: Id)
    requires |a| == |b|
    requires forall k :: 0 <= k < |a| ==> a[k].itemId == b[k].itemId
    ensures RemindersFor(a, itemId) == RemindersFor(b, itemId)
  {
    if a != [] {
      SameItemIdsSameCount(a[1..], b[1..], itemId);
    }
  }

  lemma AppendDistinctItem(items: seq<Item>, item: Item)
    requires ItemIdsDistinct(items) && !HasItem(items, item.id)
    ensures ItemIdsDistinct(items + [item])
  {
    var items' := items + [item];
    forall i, j | 0 <= i < j < |items'| ensures items'[i].id != items'[j].id {
      if j == |items| {
        assert items'[i] == items[i];
      }
    }
  }

  lemma AppendDistinctReminder(reminders: seq<Reminder>, r: Reminder)
    requires ReminderIdsDistinct(reminders) && !HasReminder(reminders, r.id)
    ensures ReminderIdsDistinct(reminders + [r])
  {
    var reminders' := reminders + [r];
    forall i, j | 0 <= i < j < |reminders'| ensures reminders'[i].id != reminders'[j].id {
      if j == |reminders| {
        assert reminders'[i] == reminders[i];
      }
    }
  }

  /** `saveItem` with fresh identifiers keeps the lists consistent. */
  lemma {:induction false} SaveItemKeepsConsistent(
    items: seq<Item>, reminders: seq<Reminder>, input: ItemInput, itemGen: Fresh, reminderGen: Fresh)
    requires Consistent(items, reminders)
    requires !HasItem(items, itemGen.id) && !HasReminder(reminders, reminderGen.id)
    ensures Consistent(items + [NewItem(input, itemGen)],
                       reminders + [NewReminder(NewItem(input, itemGen), reminderGen)])
  {
    var item := NewItem(input, itemGen);
    var r := NewReminder(item, reminderGen);
    var items' := items + [item];
    var reminders' := reminders + [r];
    AppendDistinctItem(items, item);
    AppendDistinctReminder(reminders, r);
    assert RemindersReferToItems(items', reminders') by {
      forall k | 0 <= k < |reminders'| ensures HasItem(items', reminders'[k].itemId) {
        if k < |reminders| {
          var j :| 0 <= j < |items| && items[j].id == reminders[k].itemId;
          assert items'[j] == items[j];
        } else {
          assert items'[|items|] == item;
        }
      }
    }
    assert OneReminderEach(items', reminders') by {
      forall k | 0 <= k < |items'| ensures RemindersFor(reminders', items'[k].id) == 1 {
        var id := items'[k].id;
        RemindersForConcat(reminders, [r], id);
        if k < |items| {
          assert items'[k] == items[k];
        } else {
          assert forall j :: 0 <= j < |reminders| ==> reminders[j].itemId != id;
          RemindersForNone(reminders, id);
        }
      }
    }
  }

  /** The generated identifiers are pairwise different and not yet in use. */
  predicate UnusedIds(items: seq<Item>, reminders: seq<Reminder>, itemGen: seq<Fresh>, reminderGen: seq<Fresh>) {
    && (forall k :: 0 <= k < |itemGen| ==> !HasItem(items, itemGen[k].id))
    && (forall k :: 0 <= k < |reminderGen| ==> !HasReminder(reminders, reminderGen[k].id))
    && (forall j, k :: 0 <= j < k < |itemGen| ==> itemGen[j].id != itemGen[k].id)
    && (forall j, k :: 0 <= j < k < |reminderGen| ==> reminderGen[j].id != reminderGen[k].id)
  }

  /** A batch is its first `|inputs| - 1` items and reminders followed by the last. */
  lemma BatchSplit(inputs: seq<ItemInput>, itemGen: seq<Fresh>, reminderGen: seq<Fresh>)
    requires |itemGen| == |inputs| && |reminderGen| == |inputs| && |inputs| > 0
    ensures NewItems(inputs, itemGen)
      == NewItems(inputs[..|inputs| - 1], itemGen[..|inputs| - 1]) + [NewItem(inputs[|inputs| - 1], itemGen[|inputs| - 1])]
    ensures NewReminders(NewItems(inputs, itemGen), reminderGen)
      == NewReminders(NewItems(inputs[..|inputs| - 1], itemGen[..|inputs| - 1]), reminderGen[..|inputs| - 1])
         + [NewReminder(NewItem(inputs[|inputs| - 1], itemGen[|inputs| - 1]), reminderGen[|inputs| - 1])]
  {
    var m := |inputs| - 1;
    var news := NewItems(inputs, itemGen);
    assert news[..m] == NewItems(inputs[..m], itemGen[..m]);
  }

  /** Identifiers unused by a batch's new items and the older items stay unused once the batch is in. */
  lemma FreshAfterBatch(
    items: seq<Item>, reminders: seq<Reminder>, prefix: seq<Item>, nr: seq<Reminder>, itemId: Id, reminderId: Id)
    requires !HasItem(items, itemId) && forall j :: 0 <= j < |prefix| ==> prefix[j].id != itemId
    requires !HasReminder(reminders, reminderId) && forall j :: 0 <= j < |nr| ==> nr[j].id != reminderId
    ensures !HasItem(items + prefix, itemId) && !HasReminder(reminders + nr, reminderId)
  {
    var items1, reminders1 := items + prefix, reminders + nr;
    forall j | 0 <= j < |items1| ensures items1[j].id != itemId {
      if j >= |items| {
        assert items1[j] == prefix[j - |items|];
      }
    }
    forall j | 0 <= j < |reminders1| ensures reminders1[j].id != reminderId {
      if j >= |reminders| {
        assert reminders1[j] == nr[j - |reminders|];
      }
    }
  }

  /** The identifiers of a batch's first part are unused too. */
  lemma UnusedIdsPrefix(items: seq<Item>, reminders: seq<Reminder>, itemGen: seq<Fresh>, reminderGen: seq<Fresh>, m: nat)
    requires UnusedIds(items, reminders, itemGen, reminderGen) && m <= |itemGen| && m <= |reminderGen|
    ensures UnusedIds(items, reminders, itemGen[..m], reminderGen[..m])
  {
  }

  /** Appending a whole batch created by `saveMultipleItems` also keeps the lists consistent. */
  lemma {:induction false} SaveBatchKeepsConsistent(
    items: seq<Item>, reminders: seq<Reminder>, inputs: seq<ItemInput>,
    itemGen: seq<Fresh>, reminderGen: seq<Fresh>)
    requires |itemGen| == |inputs| && |reminderGen| == |inputs|
    requires Consistent(items, reminders)
    requires UnusedIds(items, reminders, itemGen, reminderGen)
    ensures Consistent(items + NewItems(inputs, itemGen),
                       reminders + NewReminders(NewItems(inputs, itemGen), reminderGen))
    decreases |inputs|
  {
    var n := |inputs|;
    if n == 0 {
      assert items + NewItems(inputs, itemGen) == items;
      assert reminders + NewReminders(NewItems(inputs, itemGen), reminderGen) == reminders;
    } else {
      var m := n - 1;
      var prefix := NewItems(inputs[..m], itemGen[..m]);
      var last := NewItem(inputs[m], itemGen[m]);
      var nr := NewReminders(prefix, reminderGen[..m]);
      BatchSplit(inputs, itemGen, reminderGen);
      UnusedIdsPrefix(items, reminders, itemGen, reminderGen, m);
      SaveBatchKeepsConsistent(items, reminders, inputs[..m], itemGen[..m], reminderGen[..m]);
      FreshAfterBatch(items, reminders, prefix, nr, itemGen[m].id, reminderGen[m].id);
      SaveItemKeepsConsistent(items + prefix, reminders + nr, inputs[m], itemGen[m], reminderGen[m]);
      assert items + (prefix + [last]) == items + prefix + [last];
      assert reminders + (nr + [NewReminder(last, reminderGen[m])]) == reminders + nr + [NewReminder(last, reminderGen[m])];
    }
  }

  /** Cascade deletion keeps the lists consistent. */
  lemma {:induction false} DeleteItemKeepsConsistent(items: seq<Item>, reminders: seq<Reminder>, id: Id)
    requires Consistent(items, reminders)
    ensures Consistent(WithoutItem(items, id), WithoutRemindersOf(reminders, id))
  {
    var items' := WithoutItem(items, id);
    var reminders' := WithoutRemindersOf(reminders, id);
    Seqs.FilterDistinct(ItemKey, OtherThan(id), items);
    Seqs.FilterDistinct(ReminderKey, RefersElsewhere(id), reminders);
    Seqs.FilterMembers(OtherThan(id), items);
    Seqs.FilterMembers(RefersElsewhere(id), reminders);
    assert RemindersReferToItems(items', reminders') by {
      forall k | 0 <= k < |reminders'| ensures HasItem(items', reminders'[k].itemId) {
        var x := reminders'[k];
        assert x in reminders && x.itemId != id;
        var j :| 0 <= j < |reminders| && reminders[j] == x;
        var i :| 0 <= i < |items| && items[i].id == x.itemId;
        assert OtherThan(id)(items[i]);
        assert items[i] in items';
        var i' :| 0 <= i' < |items'| && items'[i'] == items[i];
      }
    }
    assert OneReminderEach(items', reminders') by {
      forall k | 0 <= k < |items'| ensures RemindersFor(reminders', items'[k].id) == 1 {
        var x := items'[k];
        assert x in items && x.id != id;
        var j :| 0 <= j < |items| && items[j] == x;
        RemindersForWithout(reminders, id, x.id);
      }
    }
  }

  /** A patch that leaves identifiers alone keeps the lists consistent. */
  lemma {:induction false} PatchItemsKeepsConsistent(items: seq<Item>, reminders: seq<Reminder>, id: Id, patch: ItemPatch)
    requires Consistent(items, reminders)
    requires patch.id.None?
    ensures Consistent(PatchItems(items, id, patch), reminders)
  {
    var items' := PatchItems(items, id, patch);
    assert forall k :: 0 <= k < |items| ==> items'[k].id == items[k].id;
    assert RemindersReferToItems(items', reminders) by {
      forall k | 0 <= k < |reminders| ensures HasItem(items', reminders[k].itemId) {
        var j :| 0 <= j < |items| && items[j].id == reminders[k].itemId;
        assert items'[j].id == items[j].id;
      }
    }
  }

  /** A reminder patch that leaves both identifiers alone keeps the lists consistent. */
  lemma {:induction false} PatchRemindersKeepsConsistent(
    items: seq<Item>, reminders: seq<Reminder>, id: Id, patch: ReminderPatch)
    requires Consistent(items, reminders)
    requires patch.id.None? && patch.itemId.None?
    ensures Consistent(items, PatchReminders(reminders, id, patch))
  {
    var reminders' := PatchReminders(reminders, id, patch);
    assert forall k :: 0 <= k < |reminders| ==> reminders'[k].id == reminders[k].id;
    assert forall k :: 0 <= k < |reminders| ==> reminders'[k].itemId == reminders[k].itemId;
    assert OneReminderEach(items, reminders') by {
      forall k | 0 <= k < |items| ensures RemindersFor(reminders', items[k].id) == 1 {
        SameItemIdsSameCount(reminders, reminders', items[k].id);
      }
    }
  }

  /** The position `updateReminder` patches: the first reminder with that id. */
  lemma PatchRemindersAt(reminders: seq<Reminder>, id: Id, patch: ReminderPatch) returns (k: nat)
    requires HasReminder(reminders, id)
    ensures k < |reminders| && reminders[k].id == id
    ensures PatchReminders(reminders, id, patch)[k] == ApplyReminderPatch(reminders[k], patch)
  {
    k := Seqs.FindIndex((r: Reminder) => r.id == id, reminders);
  }

  /** Spreading the same patch twice is spreading it once. */
  lemma ApplyReminderPatchIdempotent(r: Reminder, p: ReminderPatch)
    ensures ApplyReminderPatch(ApplyReminderPatch(r, p), p) == ApplyReminderPatch(r, p)
  {
  }

  /**
   * With unique reminder ids and a patch that keeps the id, `updateReminder(id, patch)` patches
   * exactly the reminder with that id and leaves every other reminder as it was.
   */
  lemma PatchRemindersEffect(reminders: seq<Reminder>, id: Id, patch: ReminderPatch)
    requires ReminderIdsDistinct(reminders)
    ensures |PatchReminders(reminders, id, patch)| == |reminders|
    ensures forall k :: 0 <= k < |reminders| ==>
      PatchReminders(reminders, id, patch)[k]
        == if reminders[k].id == id then ApplyReminderPatch(reminders[k], patch) else reminders[k]
  {
    var r := PatchReminders(reminders, id, patch);
    forall k | 0 <= k < |reminders| && reminders[k].id == id
      ensures r[k] == ApplyReminderPatch(reminders[k], patch)
    {
      forall i | 0 <= i < k ensures reminders[i].id != id {
        assert ReminderKey(reminders[i]) != ReminderKey(reminders[k]);
      }
    }
  }

  /** The position `updateItem` patches: the first item with that id. */
  lemma PatchItemsAt(items: seq<Item>, id: Id, patch: ItemPatch) returns (k: nat)
    requires HasItem(items, id)
    ensures k < |items| && items[k].id == id
    ensures forall j :: 0 <= j < k ==> items[j].id != id
    ensures PatchItems(items, id, patch) == items[k := ApplyItemPatch(items[k], patch)]
  {
    k := Seqs.FindIndex((i: Item) => i.id == id, items);
  }

  /**
   * With unique item ids, `updateItem(id, patch)` patches exactly the item with that id and
   * leaves every other item as it was.
   */
  lemma PatchItemsEffect(items: seq<Item>, id: Id, patch: ItemPatch)
    requires ItemIdsDistinct(items)
    ensures |PatchItems(items, id, patch)| == |items|
    ensures forall k :: 0 <= k < |items| ==>
      PatchItems(items, id, patch)[k] == if items[k].id == id then ApplyItemPatch(items[k], patch) else items[k]
  {
    var r := PatchItems(items, id, patch);
    forall k | 0 <= k < |items| && items[k].id == id
      ensures r[k] == ApplyItemPatch(items[k], patch)
    {
      forall i | 0 <= i < k ensures items[i].id != id {
        assert ItemKey(items[i]) != ItemKey(items[k]);
      }
    }
  }

  /**
   * Marking the same reminder twice is marking it once: a patch that keeps the id, applied
   * again to the list it produced, changes nothing further.
   */
  lemma PatchRemindersTwice(reminders: seq<Reminder>, id: Id, patch: ReminderPatch)
    requires patch.id.None?
    ensures PatchReminders(PatchReminders(reminders, id, patch), id, patch) == PatchReminders(reminders, id, patch)
  {
    var f := (r: Reminder) => r.id == id;
    var once := PatchReminders(reminders, id, patch);
    var k := Seqs.FindIndex(f, reminders);
    if k != -1 {
      assert once == reminders[k := ApplyReminderPatch(reminders[k], patch)];
      assert forall j :: 0 <= j < k ==> once[j] == reminders[j];
      assert f(once[k]);
      assert Seqs.FindIndex(f, once) == k;
      ApplyReminderPatchIdempotent(reminders[k], patch);
    }
  }

  /** Some reminder refers to an item that has one. */
  lemma {:induction false} RemindersForWitness(reminders: seq<Reminder>, itemId: Id) returns (k: nat)
    requires RemindersFor(reminders, itemId) > 0
    ensures k < |reminders| && reminders[k].itemId == itemId
  {
    if reminders[0].itemId == itemId {
      k := 0;
    } else {
      var j := RemindersForWitness(reminders[1..], itemId);
      k := j + 1;
    }
  }

  /**
   * An item stored without its reminder breaks the relation: no reminder can refer to an id
   * that no stored item had.
   */
  lemma OrphanItem(items: seq<Item>, reminders: seq<Reminder>, item: Item)
    requires RemindersReferToItems(items, reminders) && !HasItem(items, item.id)
    ensures !Consistent(items + [item], reminders)
  {
    forall k | 0 <= k < |reminders| ensures reminders[k].itemId != item.id {
      assert HasItem(items, reminders[k].itemId);
    }
    RemindersForNone(reminders, item.id);
    assert (items + [item])[|items|] == item;
  }

  /**
   * Removing a stored item but not its reminder breaks the relation: its reminder now refers
   * to an item that is gone.
   */
  lemma DanglingReminder(items: seq<Item>, reminders: seq<Reminder>, id: Id)
    requires Consistent(items, reminders) && HasItem(items, id)
    ensures !RemindersReferToItems(WithoutItem(items, id), reminders)
  {
    var i :| 0 <= i < |items| && items[i].id == id;
    var k := RemindersForWitness(reminders, id);
    Seqs.FilterMembers(OtherThan(id), items);
    var rest := WithoutItem(items, id);
    assert forall j :: 0 <= j < |rest| ==> rest[j].id != id;
    assert !HasItem(rest, reminders[k].itemId);
  }

  /** Removing an item that is not stored leaves the list as it is. */
  lemma WithoutAbsentItem(items: seq<Item>, id: Id)
    requires !HasItem(items, id)
    ensures WithoutItem(items, id) == items
  {
    assert forall k :: 0 <= k < |items| ==> OtherThan(id)(items[k]);
  }

  /** After the reminders of an item are dropped, none refers to it. */
  lemma NoneLeftFor(reminders: seq<Reminder>, itemId: Id)
    ensures RemindersFor(WithoutRemindersOf(reminders, itemId), itemId) == 0
  {
    var rest := WithoutRemindersOf(reminders, itemId);
    Seqs.FilterMembers(RefersElsewhere(itemId), reminders);
    assert forall k :: 0 <= k < |rest| ==> rest[k].itemId != itemId;
    RemindersForNone(rest, itemId);
  }

  /** Dropping reminders never leaves one that refers to a missing item. */
  lemma StillReferToItems(items: seq<Item>, reminders: seq<Reminder>, itemId: Id)
    requires RemindersReferToItems(items, reminders)
    ensures RemindersReferToItems(items, WithoutRemindersOf(reminders, itemId))
  {
    var rest := WithoutRemindersOf(reminders, itemId);
    Seqs.FilterMembers(RefersElsewhere(itemId), reminders);
    forall k | 0 <= k < |rest| ensures HasItem(items, rest[k].itemId) {
      var j :| 0 <= j < |reminders| && reminders[j] == rest[k];
    }
  }

  /**
   * A batch whose reminders stop after the first `j` items breaks the relation: item `j` is
   * stored without a reminder.
   */
  lemma OrphanBatchItem(
    items: seq<Item>, reminders: seq<Reminder>, inputs: seq<ItemInput>,
    itemGen: seq<Fresh>, reminderGen: seq<Fresh>, j: nat)
    requires |itemGen| == |inputs| && |reminderGen| == |inputs| && j < |inputs|
    requires Consistent(items, reminders)
    requires UnusedIds(items, reminders, itemGen, reminderGen)
    ensures !Consistent(items + NewItems(inputs, itemGen),
                        reminders + NewReminders(NewItems(inputs, itemGen)[..j], reminderGen[..j]))
  {
    var news := NewItems(inputs, itemGen);
    var nr := NewReminders(news[..j], reminderGen[..j]);
    var id := itemGen[j].id;
    forall k | 0 <= k < |reminders| ensures reminders[k].itemId != id {
      assert HasItem(items, reminders[k].itemId);
    }
    forall k | 0 <= k < |nr| ensures nr[k].itemId != id {
      assert nr[k].itemId == news[..j][k].id == itemGen[k].id;
    }
    RemindersForNone(reminders, id);
    RemindersForNone(nr, id);
    RemindersForConcat(reminders, nr, id);
    assert (items + news)[|items| + j] == news[j];
  }

  /**
   * How many of the `n` writes made from position `from` on succeed before the first that
   * throws: all of them, or the position of the first failure.
   */
  function Run(fails: nat -> bool, from: nat, n: nat): (j: nat)
    ensures j <= n
    ensures forall k :: from <= k < from + j ==> !fails(k)
    ensures j < n ==> fails(from + j)
    decreases n
  {
    if n == 0 || fails(from) then 0 else 1 + Run(fails, from + 1, n - 1)
  }

  class StorageService {
    /** `cleansort-items`. */
    var itemsEntry: Option<seq<Item>>
    /** `cleansort-reminders`. */
    var remindersEntry: Option<seq<Reminder>>
    /** `cleansort-settings`. */
    var settingsEntry: Option<Settings>
    /** `cleansort-onboarding`. */
    var onboardingEntry: Option<string>
    /** `cleansort-selected-city`. */
    var cityEntry: Option<string>
    /**
     * Which `localStorage.setItem` calls throw (storage full or disabled): the call made after
     * `n` earlier calls throws exactly when `fails(n)`. Every call can fail on its own.
     */
    const fails: nat -> bool
    /** How many `setItem` calls have been made so far. */
    var writes: nat

    /** A store over empty local storage. */
    constructor (fails: nat -> bool)
      ensures this.fails == fails && writes == 0
      ensures itemsEntry.None? && remindersEntry.None? && settingsEntry.None?
      ensures onboardingEntry.None? && cityEntry.None?
    {
      this.fails := fails;
      writes := 0;
      itemsEntry, remindersEntry, settingsEntry := None, None, None;
      onboardingEntry, cityEntry := None, None;
    }

    /** `getItems`: the stored list, or `[]` when the key is absent. */
    function GetItems(): seq<Item>
      reads this`itemsEntry
    {
      itemsEntry.GetOr([])
    }

    /** `getReminders`: the stored list, or `[]` when the key is absent. */
    function GetReminders(): seq<Reminder>
      reads this`remindersEntry
    {
      remindersEntry.GetOr([])
    }

    /** `getSettings`: the stored record, or `{}` when the key is absent. */
    function GetSettings(): Settings
      reads this`settingsEntry
    {
      settingsEntry.GetOr(map[])
    }

    /** `getOnboardingStatus`: true exactly when the stored value is "completed". */
    function GetOnboardingStatus(): (done: bool)
      reads this`onboardingEntry
      ensures done <==> onboardingEntry == Some(OnboardingDone)
    {
      match onboardingEntry
      case Some(v) => v == OnboardingDone
      case None => false
    }

    /** `getSelectedCity`: the stored city, or the default when it is absent or empty. */
    function GetSelectedCity(): (city: string)
      reads this`cityEntry
      ensures city != ""
      ensures cityEntry.Some? && cityEntry.value != "" ==> city == cityEntry.value
      ensures cityEntry.None? || cityEntry.value == "" ==> city == DefaultCity
    {
      match cityEntry
      case Some(v) => if v != "" then v else DefaultCity
      case None => DefaultCity
    }

    /** The store's consistency relation, on what the getters return. */
    ghost predicate Valid()
      reads this`itemsEntry, this`remindersEntry
    {
      Consistent(GetItems(), GetReminders())
    }

    /** `localStorage.setItem(ITEMS_KEY, …)`. */
    method PutItems(items: seq<Item>) returns (ok: bool)
      modifies this`itemsEntry, this`writes
      ensures ok == !fails(old(writes)) && writes == old(writes) + 1
      ensures itemsEntry == if ok then Some(items) else old(itemsEntry)
    {
      ok := !fails(writes);
      if ok {
        itemsEntry := Some(items);
      }
      writes := writes + 1;
    }

    /** `localStorage.setItem(REMINDERS_KEY, …)`. */
    method PutReminders(reminders: seq<Reminder>) returns (ok: bool)
      modifies this`remindersEntry, this`writes
      ensures ok == !fails(old(writes)) && writes == old(writes) + 1
      ensures remindersEntry == if ok then Some(reminders) else old(remindersEntry)
    {
      ok := !fails(writes);
      if ok {
        remindersEntry := Some(reminders);
      }
      writes := writes + 1;
    }

    /**
     * `saveItem`: append the new item, then create its reminder. When the items write throws
     * nothing is stored; when only the reminder write throws, the item stays stored without a
     * reminder and the relation is broken.
     */
    method SaveItem(input: ItemInput, itemGen: Fresh, reminderGen: Fresh) returns (result: Attempt<Item>)
      modifies this`itemsEntry, this`remindersEntry, this`writes
      ensures writes == old(writes) + (if fails(old(writes)) then 1 else 2)
      ensures itemsEntry == if fails(old(writes)) then old(itemsEntry)
                            else Some(old(GetItems()) + [NewItem(input, itemGen)])
      ensures remindersEntry == if fails(old(writes)) || fails(old(writes) + 1) then old(remindersEntry)
                                else Some(old(GetReminders()) + [NewReminder(NewItem(input, itemGen), reminderGen)])
      ensures result == if fails(old(writes)) || fails(old(writes) + 1) then Threw else Ok(NewItem(input, itemGen))
      ensures old(Valid()) && !HasItem(old(GetItems()), itemGen.id) && !HasReminder(old(GetReminders()), reminderGen.id) ==>
        (Valid() <==> !(!fails(old(writes)) && fails(old(writes) + 1)))
    {
      var items := GetItems();
      var newItem := NewItem(input, itemGen);
      items := items + [newItem];
      var ok := PutItems(items);
      if !ok {
        return Threw;
      }
      var created := CreateReminder(newItem, reminderGen);
      result := if created.Threw? then Threw else Ok(newItem);
      if old(Valid()) && !HasItem(old(GetItems()), itemGen.id) && !HasReminder(old(GetReminders()), reminderGen.id) {
        if created.Threw? {
          OrphanItem(old(GetItems()), old(GetReminders()), newItem);
        } else {
          SaveItemKeepsConsistent(old(GetItems()), old(GetReminders()), input, itemGen, reminderGen);
        }
      }
    }

    /**
     * `saveItem` as its design asks: when the reminder cannot be created, the new item is taken
     * out again by writing back the list as it was, and the failure is still reported.
     */
    method SaveItemRollingBack(input: ItemInput, itemGen: Fresh, reminderGen: Fresh) returns (result: Attempt<Item>)
      modifies this`itemsEntry, this`remindersEntry, this`writes
      ensures writes == old(writes) + (if fails(old(writes)) then 1 else if fails(old(writes) + 1) then 3 else 2)
      ensures GetItems() == if fails(old(writes)) || (fails(old(writes) + 1) && !fails(old(writes) + 2)) then old(GetItems())
                            else old(GetItems()) + [NewItem(input, itemGen)]
      ensures remindersEntry == if fails(old(writes)) || fails(old(writes) + 1) then old(remindersEntry)
                                else Some(old(GetReminders()) + [NewReminder(NewItem(input, itemGen), reminderGen)])
      ensures result == if fails(old(writes)) || fails(old(writes) + 1) then Threw else Ok(NewItem(input, itemGen))
      ensures old(Valid()) && !HasItem(old(GetItems()), itemGen.id) && !HasReminder(old(GetReminders()), reminderGen.id) ==>
        (Valid() <==> !(!fails(old(writes)) && fails(old(writes) + 1) && fails(old(writes) + 2)))
    {
      var items := GetItems();
      var itemWritten := !fails(writes);
      result := SaveItem(input, itemGen, reminderGen);
      if result.Threw? && itemWritten {
        var restored := PutItems(items);
      }
    }

    /**
     * The loop of `saveMultipleItems`: create the items' reminders one after another, stopping
     * at the first write that throws; `created` is how many were stored.
     */
    method CreateRemindersInOrder(newItems: seq<Item>, reminderGen: seq<Fresh>) returns (created: nat)
      requires |reminderGen| == |newItems|
      modifies this`remindersEntry, this`writes
      ensures created == Run(fails, old(writes), |newItems|)
      ensures remindersEntry == if created == 0 then old(remindersEntry)
                                else Some(old(GetReminders()) + NewReminders(newItems[..created], reminderGen[..created]))
      ensures writes == old(writes) + (if created == |newItems| then created else created + 1)
    {
      var k := 0;
      while k < |newItems|
        invariant 0 <= k <= Run(fails, old(writes), |newItems|)
        invariant writes == old(writes) + k
        invariant k == 0 ==> remindersEntry == old(remindersEntry)
        invariant k > 0 ==> remindersEntry == Some(old(GetReminders()) + NewReminders(newItems[..k], reminderGen[..k]))
      {
        ghost var before := GetReminders();
        assert before == old(GetReminders()) + NewReminders(newItems[..k], reminderGen[..k]);
        var r := CreateReminder(newItems[k], reminderGen[k]);
        if r.Threw? {
          return k;
        }
        assert newItems[..k + 1][..k] == newItems[..k];
        assert reminderGen[..k + 1][..k] == reminderGen[..k];
        assert NewReminders(newItems[..k + 1], reminderGen[..k + 1])
            == NewReminders(newItems[..k], reminderGen[..k]) + [NewReminder(newItems[k], reminderGen[k])];
        assert before + [NewReminder(newItems[k], reminderGen[k])]
            == old(GetReminders()) + (NewReminders(newItems[..k], reminderGen[..k]) + [NewReminder(newItems[k], reminderGen[k])]);
        k := k + 1;
      }
      created := k;
    }

    /**
     * `saveMultipleItems`: append all new items in one write, then create their reminders one
     * by one. A reminder write that throws stops the loop and leaves the items stored, with
     * reminders for the ones before it only.
     */
    method SaveMultipleItems(inputs: seq<ItemInput>, itemGen: seq<Fresh>, reminderGen: seq<Fresh>)
      returns (result: Attempt<seq<Item>>)
      requires |itemGen| == |inputs| && |reminderGen| == |inputs|
      modifies this`itemsEntry, this`remindersEntry, this`writes
      ensures fails(old(writes)) ==>
        result == Threw && itemsEntry == old(itemsEntry) && remindersEntry == old(remindersEntry)
        && writes == old(writes) + 1
      ensures !fails(old(writes)) ==>
        var j := Run(fails, old(writes) + 1, |inputs|);
        && itemsEntry == Some(old(GetItems()) + NewItems(inputs, itemGen))
        && remindersEntry == (if j == 0 then old(remindersEntry)
                              else Some(old(GetReminders()) + NewReminders(NewItems(inputs, itemGen)[..j], reminderGen[..j])))
        && result == (if j == |inputs| then Ok(NewItems(inputs, itemGen)) else Threw)
        && writes == old(writes) + 1 + (if j == |inputs| then j else j + 1)
      ensures old(Valid()) && UnusedIds(old(GetItems()), old(GetReminders()), itemGen, reminderGen) ==>
        (Valid() <==> fails(old(writes)) || Run(fails, old(writes) + 1, |inputs|) == |inputs|)
    {
      var existing := GetItems();
      var newItems := NewItems(inputs, itemGen);
      var ok := PutItems(existing + newItems);
      if !ok {
        return Threw;
      }
      var created := CreateRemindersInOrder(newItems, reminderGen);
      result := if created == |newItems| then Ok(newItems) else Threw;
      if old(Valid()) && UnusedIds(old(GetItems()), old(GetReminders()), itemGen, reminderGen) {
        BatchOutcome(old(GetItems()), old(GetReminders()), old(remindersEntry), inputs, itemGen, reminderGen, created);
      }
    }

    /** What a batch leaves behind once its items are written and `created` reminders exist. */
    lemma BatchOutcome(
      items: seq<Item>, reminders: seq<Reminder>, entry: Option<seq<Reminder>>, inputs: seq<ItemInput>,
      itemGen: seq<Fresh>, reminderGen: seq<Fresh>, created: nat)
      requires |itemGen| == |inputs| && |reminderGen| == |inputs| && created <= |inputs|
      requires reminders == entry.GetOr([])
      requires Consistent(items, reminders) && UnusedIds(items, reminders, itemGen, reminderGen)
      requires itemsEntry == Some(items + NewItems(inputs, itemGen))
      requires remindersEntry == if created == 0 then entry
                                 else Some(reminders + NewReminders(NewItems(inputs, itemGen)[..created], reminderGen[..created]))
      ensures Valid() <==> created == |inputs|
    {
      var news := NewItems(inputs, itemGen);
      assert news[..0] == [] && reminderGen[..0] == [];
      assert GetReminders() == reminders + NewReminders(news[..created], reminderGen[..created]);
      if created == |inputs| {
        assert news[..created] == news && reminderGen[..created] == reminderGen;
        SaveBatchKeepsConsistent(items, reminders, inputs, itemGen, reminderGen);
      } else {
        OrphanBatchItem(items, reminders, inputs, itemGen, reminderGen, created);
      }
    }

    /**
     * `saveMultipleItems` as its design asks: when a reminder cannot be created, the reminders
     * and the items are both written back as they were, and the failure is still reported.
     */
    method SaveMultipleItemsRollingBack(inputs: seq<ItemInput>, itemGen: seq<Fresh>, reminderGen: seq<Fresh>)
      returns (result: Attempt<seq<Item>>)
      requires |itemGen| == |inputs| && |reminderGen| == |inputs|
      modifies this`itemsEntry, this`remindersEntry, this`writes
      ensures fails(old(writes)) ==>
        result == Threw && itemsEntry == old(itemsEntry) && remindersEntry == old(remindersEntry)
        && writes == old(writes) + 1
      ensures !fails(old(writes)) && Run(fails, old(writes) + 1, |inputs|) == |inputs| ==>
        && result == Ok(NewItems(inputs, itemGen))
        && itemsEntry == Some(old(GetItems()) + NewItems(inputs, itemGen))
        && GetReminders() == old(GetReminders()) + NewReminders(NewItems(inputs, itemGen), reminderGen)
        && writes == old(writes) + 1 + |inputs|
      ensures !fails(old(writes)) && Run(fails, old(writes) + 1, |inputs|) < |inputs| ==>
        var w := old(writes) + 2 + Run(fails, old(writes) + 1, |inputs|);
        && result == Threw
        && (!fails(w) ==> GetReminders() == old(GetReminders()))
        && (!fails(w + 1) ==> GetItems() == old(GetItems()))
        && writes == w + 2
      ensures old(Valid()) && UnusedIds(old(GetItems()), old(GetReminders()), itemGen, reminderGen) ==>
        var j := Run(fails, old(writes) + 1, |inputs|);
        (fails(old(writes)) || j == |inputs| || (!fails(old(writes) + 2 + j) && !fails(old(writes) + 3 + j))) ==> Valid()
    {
      var existing := GetItems();
      var before := GetReminders();
      var itemsWritten := !fails(writes);
      result := SaveMultipleItems(inputs, itemGen, reminderGen);
      ghost var news := NewItems(inputs, itemGen);
      assert news[..|inputs|] == news && reminderGen[..|inputs|] == reminderGen;
      assert inputs == [] ==> old(GetReminders()) + NewReminders(news, reminderGen) == old(GetReminders());
      if result.Threw? && itemsWritten {
        var remindersBack := PutReminders(before);
        var itemsBack := PutItems(existing);
      }
    }

    /**
     * `updateItem`: patch the first item with that id; a missing id writes nothing. With unique
     * ids, exactly that item changes.
     */
    method UpdateItem(id: Id, patch: ItemPatch) returns (result: Attempt<()>)
      modifies this`itemsEntry, this`writes
      ensures HasItem(old(GetItems()), id) ==>
        && writes == old(writes) + 1
        && result == (if fails(old(writes)) then Threw else Ok(()))
        && itemsEntry == if fails(old(writes)) then old(itemsEntry) else Some(PatchItems(old(GetItems()), id, patch))
      ensures HasItem(old(GetItems()), id) && !fails(old(writes)) && ItemIdsDistinct(old(GetItems())) ==>
        |GetItems()| == |old(GetItems())| &&
        forall k :: 0 <= k < |old(GetItems())| ==>
          GetItems()[k] == if old(GetItems())[k].id == id then ApplyItemPatch(old(GetItems())[k], patch) else old(GetItems())[k]
      ensures !HasItem(old(GetItems()), id) ==> result == Ok(()) && itemsEntry == old(itemsEntry) && writes == old(writes)
    {
      var items := GetItems();
      var index := Seqs.FindIndex((i: Item) => i.id == id, items);
      if index != -1 {
        items := items[index := ApplyItemPatch(items[index], patch)];
        var ok := PutItems(items);
        if !ok {
          return Threw;
        }
        if ItemIdsDistinct(old(GetItems())) {
          PatchItemsEffect(old(GetItems()), id, patch);
        }
      }
      result := Ok(());
    }

    /**
     * `deleteItem`: drop every item with that id, then every reminder that refers to it. When
     * only the second write throws, the item is gone and its reminders stay behind.
     */
    method DeleteItem(id: Id) returns (result: Attempt<()>)
      modifies this`itemsEntry, this`remindersEntry, this`writes
      ensures writes == old(writes) + (if fails(old(writes)) then 1 else 2)
      ensures itemsEntry == if fails(old(writes)) then old(itemsEntry) else Some(WithoutItem(old(GetItems()), id))
      ensures remindersEntry == if fails(old(writes)) || fails(old(writes) + 1) then old(remindersEntry)
                                else Some(WithoutRemindersOf(old(GetReminders()), id))
      ensures result == if fails(old(writes)) || fails(old(writes) + 1) then Threw else Ok(())
      ensures old(Valid()) ==>
        (Valid() <==> !(!fails(old(writes)) && fails(old(writes) + 1) && HasItem(old(GetItems()), id)))
    {
      var items := GetItems();
      var filtered := WithoutItem(items, id);
      var ok := PutItems(filtered);
      if !ok {
        return Threw;
      }
      result := DeleteRemindersByItemId(id);
      if old(Valid()) {
        if result.Ok? {
          DeleteItemKeepsConsistent(old(GetItems()), old(GetReminders()), id);
        } else if HasItem(old(GetItems()), id) {
          DanglingReminder(old(GetItems()), old(GetReminders()), id);
        } else {
          WithoutAbsentItem(old(GetItems()), id);
        }
      }
    }

    /**
     * `deleteItem` in the order its design asks for: the item's reminders go first, so that
     * whichever write throws, no stored reminder refers to a missing item.
     */
    method DeleteItemRemindersFirst(id: Id) returns (result: Attempt<()>)
      modifies this`itemsEntry, this`remindersEntry, this`writes
      ensures writes == old(writes) + (if fails(old(writes)) then 1 else 2)
      ensures remindersEntry == if fails(old(writes)) then old(remindersEntry)
                                else Some(WithoutRemindersOf(old(GetReminders()), id))
      ensures itemsEntry == if fails(old(writes)) || fails(old(writes) + 1) then old(itemsEntry)
                            else Some(WithoutItem(old(GetItems()), id))
      ensures result == if fails(old(writes)) || fails(old(writes) + 1) then Threw else Ok(())
      ensures old(Valid()) ==> RemindersReferToItems(GetItems(), GetReminders())
      ensures old(Valid()) && !fails(old(writes)) && !fails(old(writes) + 1) ==> Valid()
    {
      result := DeleteRemindersByItemId(id);
      if result.Threw? {
        return;
      }
      var items := GetItems();
      var ok := PutItems(WithoutItem(items, id));
      if !ok {
        result := Threw;
      }
      if old(Valid()) {
        if ok {
          DeleteItemKeepsConsistent(old(GetItems()), old(GetReminders()), id);
        } else {
          StillReferToItems(old(GetItems()), old(GetReminders()), id);
        }
      }
    }

    /** `createReminder`: append the item's reminder, due `item.interval` days after `gen.at`. */
    method CreateReminder(item: Item, gen: Fresh) returns (result: Attempt<Reminder>)
      modifies this`remindersEntry, this`writes
      ensures writes == old(writes) + 1
      ensures result == if fails(old(writes)) then Threw else Ok(NewReminder(item, gen))
      ensures remindersEntry == if fails(old(writes)) then old(remindersEntry)
                                else Some(old(GetReminders()) + [NewReminder(item, gen)])
    {
      var reminders := GetReminders();
      var newReminder := NewReminder(item, gen);
      reminders := reminders + [newReminder];
      var ok := PutReminders(reminders);
      result := if ok then Ok(newReminder) else Threw;
    }

    /** `updateReminder`: read the list, then finish the update on what was read. */
    method UpdateReminder(id: Id, patch: ReminderPatch) returns (result: Attempt<()>)
      modifies this`remindersEntry, this`writes
      ensures HasReminder(old(GetReminders()), id) ==>
        && writes == old(writes) + 1
        && result == (if fails(old(writes)) then Threw else Ok(()))
        && remindersEntry == if fails(old(writes)) then old(remindersEntry) else Some(PatchReminders(old(GetReminders()), id, patch))
      ensures !HasReminder(old(GetReminders()), id) ==>
        result == Ok(()) && remindersEntry == old(remindersEntry) && writes == old(writes)
    {
      var snapshot := GetReminders();
      result := FinishUpdateReminder(snapshot, id, patch);
    }

    /**
     * What `updateReminder` does once `getReminders` has returned `snapshot`: patch the first
     * reminder with that id in the snapshot and write the snapshot back; a missing id writes nothing.
     */
    method FinishUpdateReminder(snapshot: seq<Reminder>, id: Id, patch: ReminderPatch) returns (result: Attempt<()>)
      modifies this`remindersEntry, this`writes
      ensures HasReminder(snapshot, id) ==>
        && writes == old(writes) + 1
        && result == (if fails(old(writes)) then Threw else Ok(()))
        && remindersEntry == if fails(old(writes)) then old(remindersEntry) else Some(PatchReminders(snapshot, id, patch))
      ensures !HasReminder(snapshot, id) ==>
        result == Ok(()) && remindersEntry == old(remindersEntry) && writes == old(writes)
    {
      var reminders := snapshot;
      var index := Seqs.FindIndex((r: Reminder) => r.id == id, reminders);
      if index != -1 {
        reminders := reminders[index := ApplyReminderPatch(reminders[index], patch)];
        var ok := PutReminders(reminders);
        if !ok {
          return Threw;
        }
      }
      result := Ok(());
    }

    /** `deleteRemindersByItemId`: drop every reminder that refers to `itemId`. */
    method DeleteRemindersByItemId(itemId: Id) returns (result: Attempt<()>)
      modifies this`remindersEntry, this`writes
      ensures writes == old(writes) + 1
      ensures result == if fails(old(writes)) then Threw else Ok(())
      ensures remindersEntry == if fails(old(writes)) then old(remindersEntry)
                                else Some(WithoutRemindersOf(old(GetReminders()), itemId))
    {
      var reminders := GetReminders();
      var ok := PutReminders(WithoutRemindersOf(reminders, itemId));
      result := if ok then Ok(()) else Threw;
    }

    /** `saveSettings`: replace the whole settings record. */
    method SaveSettings(settings: Settings) returns (result: Attempt<()>)
      modifies this`settingsEntry, this`writes
      ensures writes == old(writes) + 1
      ensures result == (if fails(old(writes)) then Threw else Ok(()))
      ensures settingsEntry == if fails(old(writes)) then old(settingsEntry) else Some(settings)
    {
      var ok := !fails(writes);
      writes := writes + 1;
      if !ok {
        return Threw;
      }
      settingsEntry := Some(settings);
      result := Ok(());
    }

    /** `setOnboardingCompleted`. */
    method SetOnboardingCompleted() returns (result: Attempt<()>)
      modifies this`onboardingEntry, this`writes
      ensures writes == old(writes) + 1
      ensures result == (if fails(old(writes)) then Threw else Ok(()))
      ensures !fails(old(writes)) ==> GetOnboardingStatus()
      ensures fails(old(writes)) ==> onboardingEntry == old(onboardingEntry)
    {
      var ok := !fails(writes);
      writes := writes + 1;
      if !ok {
        return Threw;
      }
      onboardingEntry := Some(OnboardingDone);
      result := Ok(());
    }

    /** `setSelectedCity`. */
    method SetSelectedCity(city: string) returns (result: Attempt<()>)
      modifies this`cityEntry, this`writes
      ensures writes == old(writes) + 1
      ensures result == (if fails(old(writes)) then Threw else Ok(()))
      ensures cityEntry == if fails(old(writes)) then old(cityEntry) else Some(city)
      ensures !fails(old(writes)) && city != "" ==> GetSelectedCity() == city
    {
      var ok := !fails(writes);
      writes := writes + 1;
      if !ok {
        return Threw;
      }
      cityEntry := Some(city);
      result := Ok(());
    }

    /** `clearAllData`: remove all five keys; every getter then returns its default. */
    method ClearAllData()
      modifies this`itemsEntry, this`remindersEntry, this`settingsEntry, this`onboardingEntry, this`cityEntry
      ensures itemsEntry.None? && remindersEntry.None? && settingsEntry.None?
      ensures onboardingEntry.None? && cityEntry.None?
      ensures GetItems() == [] && GetReminders() == [] && GetSettings() == map[]
      ensures !GetOnboardingStatus() && GetSelectedCity() == DefaultCity
    {
      itemsEntry, remindersEntry, settingsEntry := None, None, None;
      onboardingEntry, cityEntry := None, None;
    }
  }
}
