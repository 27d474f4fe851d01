/**
 * The home screen state (`useDashboardData`): the stored items as the dashboard shows them,
 * the reminder preview derived from them, the counters, the five most recent items, and the
 * two reminder handlers.
 */
module Dashboard {
  import opened Wrappers
  import opened Categories
  import opened Storage
  import Seqs
  import Text
  import Reminders

  /** An item as the dashboard holds it. */
  datatype ItemView = ItemView(id: Id, name: string, category: WasteCategory, addedAt: Time, disposalAt: Time)

  /** A row of the reminder preview. */
  datatype ReminderPreview = ReminderPreview(id: Id, itemName: string, category: WasteCategory, dueAt: Time, overdue: bool)

  /** The dashboard counters. */
  datatype Stats = Stats(totalItems: nat, upcomingReminders: nat, completedThisWeek: nat, overdueItems: nat)

  /**
   * When the item is to be disposed of: its stored next reminder when it has one, otherwise
   * `interval` days after it was added.
   */
  function DisposalAt(item: Item): Time {
    match item.nextReminder
    case Some(t) => t
    case None => AddDays(item.createdAt, item.interval)
  }

  function ToItemView(item: Item): ItemView {
    ItemView(item.id, item.name, item.category, item.createdAt, DisposalAt(item))
  }

  function TransformItems(items: seq<Item>): (views: seq<ItemView>)
    ensures |views| == |items|
    ensures forall k :: 0 <= k < |items| ==> views[k] == ToItemView(items[k])
  {
    seq(|items|, k requires 0 <= k < |items| => ToItemView(items[k]))
  }

  /** The items the preview keeps: those whose name does not contain "completed". */
  predicate NotMarkedCompleted(v: ItemView) {
    !Text.Contains(v.name, "completed")
  }

  function ToPreview(v: ItemView, now: Time): ReminderPreview {
    ReminderPreview(v.id, v.name, v.category, v.disposalAt, v.disposalAt < now)
  }

  function ToPreviews(views: seq<ItemView>, now: Time): (r: seq<ReminderPreview>)
    ensures |r| == |views|
    ensures forall k :: 0 <= k < |views| ==> r[k] == ToPreview(views[k], now)
  {
    seq(|views|, k requires 0 <= k < |views| => ToPreview(views[k], now))
  }

  predicate SortedByDue(s: seq<ReminderPreview>) {
    forall i, j :: 0 <= i < j < |s| ==> s[i].dueAt <= s[j].dueAt
  }

  /** `x` placed before the first element due no earlier than it. */
  function InsertByDue(x: ReminderPreview, s: seq<ReminderPreview>): (r: seq<ReminderPreview>)
    requires SortedByDue(s)
    ensures SortedByDue(r)
    ensures multiset(r) == multiset(s) + multiset{x}
    ensures |r| == |s| + 1
    ensures r[0] == if s != [] && s[0].dueAt < x.dueAt then s[0] else x
  {
    if s == [] || x.dueAt <= s[0].dueAt then [x] + s
    else
      var rest := InsertByDue(x, s[1..]);
      assert s == [s[0]] + s[1..];
      [s[0]] + rest
  }

  /** `.sort((a, b) => a.dueAt - b.dueAt)`: ascending by due date. */
  function SortByDue(s: seq<ReminderPreview>): (r: seq<ReminderPreview>)
    ensures SortedByDue(r)
    ensures multiset(r) == multiset(s)
  {
    if s == [] then []
    else
      assert s == [s[0]] + s[1..];
      InsertByDue(s[0], SortByDue(s[1..]))
  }

  /** The preview list rendered on the dashboard. */
  function PreviewReminders(views: seq<ItemView>, now: Time): seq<ReminderPreview> {
    SortByDue(ToPreviews(Seqs.Filter(NotMarkedCompleted, views), now))
  }

  predicate IsOverdue(p: ReminderPreview) { p.overdue }

  predicate IsNotOverdue(p: ReminderPreview) { !p.overdue }

  /** The counters; the completed count is a fixed 3. */
  function DashboardStats(views: seq<ItemView>, now: Time): Stats {
    var preview := PreviewReminders(views, now);
    Stats(|views|, Seqs.Count(IsNotOverdue, preview), 3, Seqs.Count(IsOverdue, preview))
  }

  /**
   * The preview holds exactly the items not named "completed", one row each, each row
   * overdue exactly when its disposal date is past, and in due-date order.
   */
  lemma PreviewContents(views: seq<ItemView>, now: Time)
    ensures SortedByDue(PreviewReminders(views, now))
    ensures multiset(PreviewReminders(views, now)) == multiset(ToPreviews(Seqs.Filter(NotMarkedCompleted, views), now))
    ensures forall p :: p in PreviewReminders(views, now) ==> (p.overdue <==> p.dueAt < now)
    ensures |PreviewReminders(views, now)| <= |views|
  {
    var kept := ToPreviews(Seqs.Filter(NotMarkedCompleted, views), now);
    var preview := PreviewReminders(views, now);
    assert |preview| == |multiset(preview)| == |multiset(kept)| == |kept|;
    forall p | p in preview ensures p.overdue <==> p.dueAt < now {
      assert p in multiset(preview);
      assert p in multiset(kept);
      assert p in kept;
    }
  }

  lemma {:induction false} OverdueSplit(s: seq<ReminderPreview>)
    ensures Seqs.Count(IsNotOverdue, s) + Seqs.Count(IsOverdue, s) == |s|
  {
    if s != [] {
      OverdueSplit(s[1..]);
    }
  }

  /**
   * The upcoming and overdue counters add up to the preview length, which never exceeds the
   * item count.
   */
  lemma StatsAddUp(views: seq<ItemView>, now: Time)
    ensures DashboardStats(views, now).upcomingReminders + DashboardStats(views, now).overdueItems
            == |PreviewReminders(views, now)|
    ensures |PreviewReminders(views, now)| <= DashboardStats(views, now).totalItems
  {
    OverdueSplit(PreviewReminders(views, now));
    PreviewContents(views, now);
  }

  predicate SortedByAddedDesc(s: seq<ItemView>) {
    forall i, j :: 0 <= i < j < |s| ==> s[i].addedAt >= s[j].addedAt
  }

  function Min(a: int, b: int): int { if a < b then a else b }

  /** The first stored reminder of item `itemId` (`reminders.find(r => r.itemId === id)`). */
  function ReminderOfItem(reminders: seq<Reminder>, itemId: Id): Option<Reminder> {
    Seqs.Find((r: Reminder) => r.itemId == itemId, reminders)
  }

  /** What the dashboard handlers store: the first reminder of the item, patched. */
  function PatchReminderOfItem(reminders: seq<Reminder>, itemId: Id, patch: ReminderPatch): seq<Reminder> {
    match ReminderOfItem(reminders, itemId)
    case None => reminders
    case Some(r) => PatchReminders(reminders, r.id, patch)
  }

  /**
   * With unique reminder ids, the dashboard handlers patch the first reminder of the item and
   * nothing else; an item without a reminder changes nothing.
   */
  lemma PatchReminderOfItemEffect(reminders: seq<Reminder>, itemId: Id, patch: ReminderPatch)
    requires ReminderIdsDistinct(reminders)
    ensures |PatchReminderOfItem(reminders, itemId, patch)| == |reminders|
    ensures (forall k :: 0 <= k < |reminders| ==> reminders[k].itemId != itemId) ==>
      PatchReminderOfItem(reminders, itemId, patch) == reminders
    ensures forall k :: 0 <= k < |reminders| ==>
      PatchReminderOfItem(reminders, itemId, patch)[k]
        == if reminders[k].itemId == itemId && (forall j :: 0 <= j < k ==> reminders[j].itemId != itemId)
           then ApplyReminderPatch(reminders[k], patch) else reminders[k]
  {
    var found := ReminderOfItem(reminders, itemId);
    if found.Some? {
      var i :| 0 <= i < |reminders| && reminders[i] == found.value && reminders[i].itemId == itemId
               && forall j :: 0 <= j < i ==> reminders[j].itemId != itemId;
      PatchRemindersEffect(reminders, found.value.id, patch);
      assert forall k :: 0 <= k < |reminders| && reminders[k].id == found.value.id ==> k == i;
    }
  }

  /** Sorts `a` in place, most recently added first (insertion sort). */
  method SortByAddedDesc(a: array<ItemView>)
    modifies a
    ensures SortedByAddedDesc(a[..])
    ensures multiset(a[..]) == multiset(old(a[..]))
  {
    var i := 0;
    while i < a.Length
      invariant 0 <= i <= a.Length
      invariant SortedByAddedDesc(a[..i])
      invariant multiset(a[..]) == multiset(old(a[..]))
    {
      InsertAt(a, i);
      i := i + 1;
    }
    assert a[..] == a[..a.Length];
  }

  lemma SwapKeepsMultiset<T>(s: seq<T>, i: int, k: int)
    requires 0 <= i < |s| && 0 <= k < |s|
    ensures multiset(s[i := s[k]][k := s[i]]) == multiset(s)
  {
  }

  /** The element `a[j]` was added after `a[j - 1]`: exchange them, keeping the insertion invariant. */
  method SwapDown(a: array<ItemView>, i: int, j: int)
    requires 0 < j <= i < a.Length
    requires a[j - 1].addedAt < a[j].addedAt
    requires forall p, q :: 0 <= p < q <= i && p != j && q != j ==> a[p].addedAt >= a[q].addedAt
    requires forall q :: j < q <= i ==> a[q].addedAt <= a[j].addedAt
    modifies a
    ensures multiset(a[..]) == multiset(old(a[..]))
    ensures forall p, q :: 0 <= p < q <= i && p != j - 1 && q != j - 1 ==> a[p].addedAt >= a[q].addedAt
    ensures forall q :: j - 1 < q <= i ==> a[q].addedAt <= a[j - 1].addedAt
  {
    ghost var before := a[..];
    var x, y := a[j], a[j - 1];
    a[j - 1], a[j] := x, y;
    assert a[..] == before[j - 1 := before[j]][j := before[j - 1]];
    SwapKeepsMultiset(before, j - 1, j);
    forall p, q | 0 <= p < q <= i && p != j - 1 && q != j - 1
      ensures a[p].addedAt >= a[q].addedAt
    {
      var p' := if p == j then j - 1 else p;
      var q' := if q == j then j - 1 else q;
      assert a[p] == before[p'] && a[q] == before[q'];
    }
    forall q | j - 1 < q <= i ensures a[q].addedAt <= a[j - 1].addedAt {
      if q > j {
        assert a[q] == before[q];
      }
    }
  }

  /** Moves `a[i]` left past every element added before it, so that `a[..i + 1]` is sorted. */
  method InsertAt(a: array<ItemView>, i: int)
    requires 0 <= i < a.Length
    requires SortedByAddedDesc(a[..i])
    modifies a
    ensures SortedByAddedDesc(a[..i + 1])
    ensures multiset(a[..]) == multiset(old(a[..]))
  {
    var j := i;
    while j > 0 && a[j - 1].addedAt < a[j].addedAt
      invariant 0 <= j <= i
      invariant multiset(a[..]) == multiset(old(a[..]))
      invariant forall p, q :: 0 <= p < q <= i && p != j && q != j ==> a[p].addedAt >= a[q].addedAt
      invariant forall q :: j < q <= i ==> a[q].addedAt <= a[j].addedAt
    {
      SwapDown(a, i, j);
      j := j - 1;
    }
  }

  class DashboardData {
    const store: StorageService
    var items: array<ItemView>
    var loading: bool

    constructor (store: StorageService)
      ensures this.store == store && items.Length == 0 && loading
    {
      this.store := store;
      items := new ItemView[0];
      loading := true;
    }

    /** `loadData`: a fresh list built from the stored items. */
    method LoadData()
      modifies this`items, this`loading
      ensures fresh(items)
      ensures items[..] == TransformItems(store.GetItems()) && !loading
    {
      var views := TransformItems(store.GetItems());
      items := new ItemView[|views|](k requires 0 <= k < |views| => views[k]);
      loading := false;
      assert items[..] == views;
    }

    /** The reminder preview of the current items at time `now`. */
    function Preview(now: Time): seq<ReminderPreview>
      reads this, items
    {
      PreviewReminders(items[..], now)
    }

    /** The counters of the current items at time `now`. */
    function CurrentStats(now: Time): Stats
      reads this, items
    {
      DashboardStats(items[..], now)
    }

    /**
     * `recentItems`: sorts the held items in place, most recently added first, and returns the
     * first five of them.
     */
    method RecentItems() returns (recent: seq<ItemView>)
      modifies items
      ensures SortedByAddedDesc(items[..])
      ensures multiset(items[..]) == multiset(old(items[..]))
      ensures recent == items[..Min(5, items.Length)]
    {
      SortByAddedDesc(items);
      recent := items[..Min(5, items.Length)];
    }

    /** `handleMarkDone(itemId)`: complete the item's first reminder, then reload. */
    method HandleMarkDone(itemId: Id)
      modifies this`items, this`loading, store`remindersEntry, store`writes
      ensures store.writes == old(store.writes) + (if ReminderOfItem(old(store.GetReminders()), itemId).Some? then 1 else 0)
      ensures store.fails(old(store.writes)) ==> store.remindersEntry == old(store.remindersEntry)
      ensures !store.fails(old(store.writes)) ==>
        store.GetReminders() == PatchReminderOfItem(old(store.GetReminders()), itemId, Reminders.DonePatch)
      ensures ReminderOfItem(old(store.GetReminders()), itemId).Some? && !store.fails(old(store.writes)) ==>
        fresh(items) && items[..] == TransformItems(store.GetItems()) && !loading
      ensures ReminderOfItem(old(store.GetReminders()), itemId).None? || store.fails(old(store.writes)) ==>
        items == old(items) && loading == old(loading)
    {
      var reminders := store.GetReminders();
      var reminder := ReminderOfItem(reminders, itemId);
      if reminder.Some? {
        var result := store.UpdateReminder(reminder.value.id, Reminders.DonePatch);
        if result.Threw? {
          return;
        }
        LoadData();
      }
    }

    /** `handleSnooze(itemId)`: make the item's first reminder due one day after `now`, then reload. */
    method HandleSnooze(itemId: Id, now: Time)
      modifies this`items, this`loading, store`remindersEntry, store`writes
      ensures store.writes == old(store.writes) + (if ReminderOfItem(old(store.GetReminders()), itemId).Some? then 1 else 0)
      ensures store.fails(old(store.writes)) ==> store.remindersEntry == old(store.remindersEntry)
      ensures !store.fails(old(store.writes)) ==>
        store.GetReminders() == PatchReminderOfItem(old(store.GetReminders()), itemId, Reminders.SnoozePatch(AddDays(now, 1)))
      ensures ReminderOfItem(old(store.GetReminders()), itemId).Some? && !store.fails(old(store.writes)) ==>
        fresh(items) && items[..] == TransformItems(store.GetItems()) && !loading
      ensures ReminderOfItem(old(store.GetReminders()), itemId).None? || store.fails(old(store.writes)) ==>
        items == old(items) && loading == old(loading)
    {
      var reminders := store.GetReminders();
      var reminder := ReminderOfItem(reminders, itemId);
      if reminder.Some? {
        var newDueDate := AddDays(now, 1);
        var result := store.UpdateReminder(reminder.value.id, Reminders.SnoozePatch(newDueDate));
        if result.Threw? {
          return;
        }
        LoadData();
      }
    }
  }
}
