/**
 * The reminders screen state (`useReminders`): the reminders as displayed, the tab each one
 * falls in, the multi-selection, and the handlers that update the store.
 *
 * The bulk handlers start one store call per selected id and wait for them together
 * (`Promise.all`). Each store call reads local storage before its first `await` and writes
 * after it, so every read happens before any write; the methods below run the calls in that
 * order.
 */
module Reminders {
  import opened Wrappers
  import opened Categories
  import opened Storage
  import Seqs

  /** `ReminderData`: a stored reminder as the screen shows it. */
  datatype ReminderView = ReminderView(
    id: Id, itemName: string, category: WasteCategory, dueAt: Time, completed: bool, overdue: bool)

  /**
   * One stored reminder as shown at time `now`: completed when its status says so; overdue
   * when its status says so, or when it is upcoming and its due date is already past.
   */
  function ToView(r: Reminder, now: Time): ReminderView {
    ReminderView(r.id, r.itemName, r.category, r.dueDate,
                 r.status == Completed,
                 r.status == Overdue || (r.status == Upcoming && r.dueDate < now))
  }

  function Transform(reminders: seq<Reminder>, now: Time): (views: seq<ReminderView>)
    ensures |views| == |reminders|
    ensures forall k :: 0 <= k < |reminders| ==> views[k] == ToView(reminders[k], now)
  {
    seq(|reminders|, k requires 0 <= k < |reminders| => ToView(reminders[k], now))
  }

  predicate InUpcomingTab(v: ReminderView) { !v.completed && !v.overdue }

  predicate InCompletedTab(v: ReminderView) { v.completed }

  predicate InMissedTab(v: ReminderView) { !v.completed && v.overdue }

  function UpcomingReminders(views: seq<ReminderView>): seq<ReminderView> {
    Seqs.Filter(InUpcomingTab, views)
  }

  function CompletedReminders(views: seq<ReminderView>): seq<ReminderView> {
    Seqs.Filter(InCompletedTab, views)
  }

  function MissedReminders(views: seq<ReminderView>): seq<ReminderView> {
    Seqs.Filter(InMissedTab, views)
  }

  /** A stored reminder is never shown both completed and overdue. */
  lemma CompletedIsNotOverdue(r: Reminder, now: Time)
    ensures ToView(r, now).completed ==> !ToView(r, now).overdue
  {
  }

  /** The three tabs split the reminders: each one is in exactly one tab and none is lost. */
  lemma {:induction false} TabsPartition(views: seq<ReminderView>)
    ensures |UpcomingReminders(views)| + |CompletedReminders(views)| + |MissedReminders(views)| == |views|
    ensures forall k :: 0 <= k < |views| ==>
      (if InUpcomingTab(views[k]) then 1 else 0) + (if InCompletedTab(views[k]) then 1 else 0)
      + (if InMissedTab(views[k]) then 1 else 0) == 1
  {
    if views != [] {
      TabsPartition(views[1..]);
    }
  }

  /** Overdue stays overdue as time passes; a completed reminder never becomes overdue. */
  lemma OverdueIsMonotone(r: Reminder, t1: Time, t2: Time)
    requires t1 <= t2
    ensures ToView(r, t1).overdue ==> ToView(r, t2).overdue
  {
  }

  /** The patch `handleMarkDone` sends. */
  const DonePatch: ReminderPatch := ReminderPatch(None, None, None, None, None, Some(Completed), None)

  /** The patch `handleSnooze` sends: due again at `due`, and upcoming. */
  function SnoozePatch(due: Time): ReminderPatch {
    ReminderPatch(None, None, None, None, Some(due), Some(Upcoming), None)
  }

  /** After marking a stored reminder done, the reload shows it under the completed tab. */
  lemma {:induction false} MarkDoneShowsCompleted(reminders: seq<Reminder>, id: Id, now: Time)
    requires HasReminder(reminders, id)
    ensures exists v :: v in CompletedReminders(Transform(PatchReminders(reminders, id, DonePatch), now)) && v.id == id
  {
    var k := PatchRemindersAt(reminders, id, DonePatch);
    var views := Transform(PatchReminders(reminders, id, DonePatch), now);
    assert views[k] == ToView(ApplyReminderPatch(reminders[k], DonePatch), now);
    assert views[k].id == id && InCompletedTab(views[k]);
    Seqs.FilterMembers(InCompletedTab, views);
    assert views[k] in CompletedReminders(views);
  }

  /**
   * After snoozing a stored reminder by a non-negative number of hours, the reload at the same
   * moment shows it under the upcoming tab, whatever its status was, completed included.
   */
  lemma {:induction false} SnoozeShowsUpcoming(reminders: seq<Reminder>, id: Id, now: Time, hours: int)
    requires HasReminder(reminders, id) && hours >= 0
    ensures exists v :: v in UpcomingReminders(Transform(PatchReminders(reminders, id, SnoozePatch(AddHours(now, hours))), now))
                       && v.id == id && v.dueAt == AddHours(now, hours)
  {
    var due := AddHours(now, hours);
    assert due >= now by {
      assert MsPerHour == 3600000;
      assert hours * 3600000 >= 0;
    }
    var k := PatchRemindersAt(reminders, id, SnoozePatch(due));
    var views := Transform(PatchReminders(reminders, id, SnoozePatch(due)), now);
    assert views[k] == ToView(ApplyReminderPatch(reminders[k], SnoozePatch(due)), now);
    assert views[k].id == id && views[k].dueAt == due && InUpcomingTab(views[k]);
    Seqs.FilterMembers(InUpcomingTab, views);
    assert views[k] in UpcomingReminders(views);
  }

  /** `prev.filter(selectedId => selectedId !== id)`. */
  function Deselect(selected: seq<Id>, id: Id): seq<Id> {
    Seqs.Filter((x: Id) => x != id, selected)
  }

  /** `handleToggleSelect`: drop `id` when selected, otherwise select it last. */
  function Toggle(selected: seq<Id>, id: Id): (r: seq<Id>)
    ensures id in r <==> id !in selected
    ensures forall x :: x != id ==> (x in r <==> x in selected)
  {
    if id in selected then
      DeselectRemovesOnly(selected, id);
      Deselect(selected, id)
    else
      selected + [id]
  }

  lemma {:induction false} DeselectRemovesOnly(selected: seq<Id>, id: Id)
    ensures id !in Deselect(selected, id)
    ensures forall x :: x != id ==> (x in Deselect(selected, id) <==> x in selected)
  {
    var r := Deselect(selected, id);
    Seqs.FilterMembers((x: Id) => x != id, selected);
    forall x | x != id && x in selected ensures x in r {
      var k :| 0 <= k < |selected| && selected[k] == x;
    }
  }

  predicate NoDuplicates(ids: seq<Id>) {
    forall i, j :: 0 <= i < j < |ids| ==> ids[i] != ids[j]
  }

  /** Toggling keeps the selection free of duplicates. */
  lemma ToggleKeepsNoDuplicates(selected: seq<Id>, id: Id)
    requires NoDuplicates(selected)
    ensures NoDuplicates(Toggle(selected, id))
  {
    if id in selected {
      Seqs.FilterDistinct((x: Id) => x, (x: Id) => x != id, selected);
      assert Seqs.DistinctBy((x: Id) => x, selected);
    }
  }

  /**
   * Toggling the same id twice gives back the same selected set; when the id was not selected
   * it gives back the very same list.
   */
  lemma {:induction false} ToggleTwice(selected: seq<Id>, id: Id)
    ensures forall x :: x in Toggle(Toggle(selected, id), id) <==> x in selected
    ensures id !in selected ==> Toggle(Toggle(selected, id), id) == selected
  {
    if id !in selected {
      var t := selected + [id];
      DeselectRemovesOnly(t, id);
      Seqs.FilterConcat((x: Id) => x != id, selected, [id]);
      assert Deselect(selected, id) == selected;
    }
  }

  /** `remindersList.map(r => r.id)`. */
  function Ids(views: seq<ReminderView>): (ids: seq<Id>)
    ensures |ids| == |views| && forall k :: 0 <= k < |views| ==> ids[k] == views[k].id
  {
    seq(|views|, k requires 0 <= k < |views| => views[k].id)
  }

  /** Whether some selected id names a reminder of `reminders`. */
  predicate AnyPresent(reminders: seq<Reminder>, ids: seq<Id>) {
    exists j :: 0 <= j < |ids| && HasReminder(reminders, ids[j])
  }

  /**
   * Local storage after the concurrent `updateReminder` calls of a bulk handler: each call
   * patches the same `snapshot` and writes it back, so the last selected id found in the
   * snapshot decides what is stored.
   */
  function InterleavedUpdate(entry: Option<seq<Reminder>>, snapshot: seq<Reminder>, ids: seq<Id>, patch: ReminderPatch)
    : Option<seq<Reminder>>
  {
    if ids == [] then entry
    else
      var last := ids[|ids| - 1];
      if HasReminder(snapshot, last) then Some(PatchReminders(snapshot, last, patch))
      else InterleavedUpdate(entry, snapshot, ids[..|ids| - 1], patch)
  }

  /** The last selected id that names a reminder of `snapshot`. */
  function LastPresent(snapshot: seq<Reminder>, ids: seq<Id>): (id: Id)
    requires AnyPresent(snapshot, ids)
    ensures id in ids && HasReminder(snapshot, id)
  {
    var last := ids[|ids| - 1];
    if HasReminder(snapshot, last) then last
    else
      assert AnyPresent(snapshot, ids[..|ids| - 1]) by {
        var j :| 0 <= j < |ids| && HasReminder(snapshot, ids[j]);
        assert ids[..|ids| - 1][j] == ids[j];
      }
      LastPresent(snapshot, ids[..|ids| - 1])
  }

  /**
   * The concurrent bulk update keeps only one of its patches: what is stored is the snapshot
   * with the last present id patched, and nothing at all when no selected id is present.
   */
  lemma {:induction false} InterleavedUpdateLastWins(
    entry: Option<seq<Reminder>>, snapshot: seq<Reminder>, ids: seq<Id>, patch: ReminderPatch)
    ensures !AnyPresent(snapshot, ids) ==> InterleavedUpdate(entry, snapshot, ids, patch) == entry
    ensures AnyPresent(snapshot, ids) ==>
      InterleavedUpdate(entry, snapshot, ids, patch) == Some(PatchReminders(snapshot, LastPresent(snapshot, ids), patch))
  {
    if ids != [] {
      var init := ids[..|ids| - 1];
      InterleavedUpdateLastWins(entry, snapshot, init, patch);
      if !HasReminder(snapshot, ids[|ids| - 1]) {
        if AnyPresent(snapshot, init) {
          var j :| 0 <= j < |init| && HasReminder(snapshot, init[j]);
          assert ids[j] == init[j];
        } else {
          forall j | 0 <= j < |ids| ensures !HasReminder(snapshot, ids[j]) {
            if j < |init| {
              assert ids[j] == init[j];
            }
          }
        }
      }
    }
  }

  /** Local storage after awaiting the same updates one after another. */
  function SequentialUpdate(reminders: seq<Reminder>, ids: seq<Id>, patch: ReminderPatch): seq<Reminder> {
    if ids == [] then reminders
    else PatchReminders(SequentialUpdate(reminders, ids[..|ids| - 1], patch), ids[|ids| - 1], patch)
  }

  /**
   * Awaiting the updates one after another patches every selected reminder and nothing else
   * (reminder ids unique, patch keeping the id).
   */
  lemma {:induction false} SequentialUpdateEffect(reminders: seq<Reminder>, ids: seq<Id>, patch: ReminderPatch)
    requires ReminderIdsDistinct(reminders) && patch.id.None?
    ensures |SequentialUpdate(reminders, ids, patch)| == |reminders|
    ensures forall k :: 0 <= k < |reminders| ==>
      SequentialUpdate(reminders, ids, patch)[k]
        == if reminders[k].id in ids then ApplyReminderPatch(reminders[k], patch) else reminders[k]
  {
    if ids != [] {
      var init := ids[..|ids| - 1];
      var last := ids[|ids| - 1];
      SequentialUpdateEffect(reminders, init, patch);
      var mid := SequentialUpdate(reminders, init, patch);
      SameIdsDistinct(reminders, mid);
      PatchRemindersEffect(mid, last, patch);
      var final := PatchReminders(mid, last, patch);
      assert SequentialUpdate(reminders, ids, patch) == final;
      assert ids == init + [last];
      forall k | 0 <= k < |reminders|
        ensures final[k] == if reminders[k].id in ids then ApplyReminderPatch(reminders[k], patch) else reminders[k]
      {
        var r := reminders[k];
        assert r.id in ids <==> r.id in init || r.id == last;
        if r.id in init {
          ApplyReminderPatchIdempotent(r, patch);
        }
      }
    }
  }

  /** Reminders with the ids of distinct-id reminders, position by position, have distinct ids. */
  lemma SameIdsDistinct(reminders: seq<Reminder>, others: seq<Reminder>)
    requires ReminderIdsDistinct(reminders)
    requires |others| == |reminders| && forall k :: 0 <= k < |reminders| ==> others[k].id == reminders[k].id
    ensures ReminderIdsDistinct(others)
  {
    forall i, j | 0 <= i < j < |others| ensures ReminderKey(others[i]) != ReminderKey(others[j]) {
      assert ReminderKey(reminders[i]) != ReminderKey(reminders[j]);
    }
  }

  /** How many selected ids name a reminder of `snapshot`: the writes the concurrent updates make. */
  function PresentCount(snapshot: seq<Reminder>, ids: seq<Id>): (n: nat)
    ensures n <= |ids|
  {
    if ids == [] then 0
    else PresentCount(snapshot, ids[..|ids| - 1]) + (if HasReminder(snapshot, ids[|ids| - 1]) then 1 else 0)
  }

  /**
   * The selected ids whose concurrent update writes successfully, in order, when the writes
   * are made from position `from` on; an id that names no reminder of `snapshot` writes nothing.
   */
  function Written(snapshot: seq<Reminder>, ids: seq<Id>, fails: nat -> bool, from: nat): (r: seq<Id>)
    ensures |r| <= PresentCount(snapshot, ids)
  {
    if ids == [] then []
    else
      var init := ids[..|ids| - 1];
      var last := ids[|ids| - 1];
      Written(snapshot, init, fails, from)
        + (if HasReminder(snapshot, last) && !fails(from + PresentCount(snapshot, init)) then [last] else [])
  }

  /**
   * When none of their writes throws, the concurrent updates all write, and what they leave is
   * what the last writer leaves.
   */
  lemma {:induction false} WrittenWithoutFailures(
    entry: Option<seq<Reminder>>, snapshot: seq<Reminder>, ids: seq<Id>, patch: ReminderPatch, fails: nat -> bool, from: nat)
    requires forall k :: from <= k < from + PresentCount(snapshot, ids) ==> !fails(k)
    ensures |Written(snapshot, ids, fails, from)| == PresentCount(snapshot, ids)
    ensures InterleavedUpdate(entry, snapshot, Written(snapshot, ids, fails, from), patch)
            == InterleavedUpdate(entry, snapshot, ids, patch)
  {
    if ids != [] {
      var init := ids[..|ids| - 1];
      var last := ids[|ids| - 1];
      WrittenWithoutFailures(entry, snapshot, init, patch, fails, from);
      if HasReminder(snapshot, last) {
        assert !fails(from + PresentCount(snapshot, init));
        assert Written(snapshot, ids, fails, from) == Written(snapshot, init, fails, from) + [last];
        assert ids == init + [last];
        LastWriterWins(entry, snapshot, init, last, patch);
        LastWriterWins(entry, snapshot, Written(snapshot, init, fails, from), last, patch);
      } else {
        assert Written(snapshot, ids, fails, from) == Written(snapshot, init, fails, from);
      }
    }
  }

  /** A write for an id of the snapshot overwrites whatever the earlier concurrent writes left. */
  lemma LastWriterWins(entry: Option<seq<Reminder>>, snapshot: seq<Reminder>, ids: seq<Id>, id: Id, patch: ReminderPatch)
    requires HasReminder(snapshot, id)
    ensures InterleavedUpdate(entry, snapshot, ids + [id], patch) == Some(PatchReminders(snapshot, id, patch))
  {
    var t := ids + [id];
    assert t[|t| - 1] == id;
  }

  /** One more id in the concurrent batch: its write, if it makes one, comes after the others'. */
  lemma WrittenSnoc(snapshot: seq<Reminder>, ids: seq<Id>, id: Id, fails: nat -> bool, from: nat)
    ensures PresentCount(snapshot, ids + [id]) == PresentCount(snapshot, ids) + (if HasReminder(snapshot, id) then 1 else 0)
    ensures Written(snapshot, ids + [id], fails, from)
            == Written(snapshot, ids, fails, from)
               + (if HasReminder(snapshot, id) && !fails(from + PresentCount(snapshot, ids)) then [id] else [])
  {
    assert (ids + [id])[..|ids|] == ids;
  }

  /** One more call of the concurrent batch runs: what it leaves, and whether the batch has thrown. */
  lemma InterleavedStep(
    entry: Option<seq<Reminder>>, snapshot: seq<Reminder>, ids: seq<Id>, i: nat, patch: ReminderPatch,
    fails: nat -> bool, from: nat, before: Option<seq<Reminder>>, after: Option<seq<Reminder>>, threw: bool, ok: bool)
    requires i < |ids|
    requires before == InterleavedUpdate(entry, snapshot, Written(snapshot, ids[..i], fails, from), patch)
    requires threw <==> |Written(snapshot, ids[..i], fails, from)| < PresentCount(snapshot, ids[..i])
    requires HasReminder(snapshot, ids[i]) ==>
      ok == !fails(from + PresentCount(snapshot, ids[..i]))
      && after == if ok then Some(PatchReminders(snapshot, ids[i], patch)) else before
    requires !HasReminder(snapshot, ids[i]) ==> ok && after == before
    ensures after == InterleavedUpdate(entry, snapshot, Written(snapshot, ids[..i + 1], fails, from), patch)
    ensures threw || !ok <==> |Written(snapshot, ids[..i + 1], fails, from)| < PresentCount(snapshot, ids[..i + 1])
    ensures PresentCount(snapshot, ids[..i + 1])
            == PresentCount(snapshot, ids[..i]) + (if HasReminder(snapshot, ids[i]) then 1 else 0)
  {
    var done := Written(snapshot, ids[..i], fails, from);
    assert ids[..i + 1] == ids[..i] + [ids[i]];
    WrittenSnoc(snapshot, ids[..i], ids[i], fails, from);
    var next := Written(snapshot, ids[..i + 1], fails, from);
    if HasReminder(snapshot, ids[i]) && ok {
      assert next == done + [ids[i]];
      LastWriterWins(entry, snapshot, done, ids[i], patch);
    } else {
      assert next == done;
    }
  }

  /** How many writes the updates awaited one after another make: one per id found at its turn. */
  function SequentialWrites(reminders: seq<Reminder>, ids: seq<Id>, patch: ReminderPatch): nat {
    if ids == [] then 0
    else
      var init := ids[..|ids| - 1];
      SequentialWrites(reminders, init, patch)
        + (if HasReminder(SequentialUpdate(reminders, init, patch), ids[|ids| - 1]) then 1 else 0)
  }

  /** Whether, awaiting the updates one after another, the write for `ids[j]` is made and throws. */
  predicate ThrowsAt(reminders: seq<Reminder>, ids: seq<Id>, patch: ReminderPatch, fails: nat -> bool, from: nat, j: nat)
    requires j < |ids|
  {
    && HasReminder(SequentialUpdate(reminders, ids[..j], patch), ids[j])
    && fails(from + SequentialWrites(reminders, ids[..j], patch))
  }

  /** The first position at or after `j` whose awaited update throws, or `|ids|` when none does. */
  function FirstThrow(reminders: seq<Reminder>, ids: seq<Id>, patch: ReminderPatch, fails: nat -> bool, from: nat, j: nat)
    : (m: nat)
    requires j <= |ids|
    ensures j <= m <= |ids|
    ensures forall k :: j <= k < m ==> !ThrowsAt(reminders, ids, patch, fails, from, k)
    ensures m < |ids| ==> ThrowsAt(reminders, ids, patch, fails, from, m)
    decreases |ids| - j
  {
    if j == |ids| then j
    else if ThrowsAt(reminders, ids, patch, fails, from, j) then j
    else FirstThrow(reminders, ids, patch, fails, from, j + 1)
  }

  /**
   * One more update awaited after the others: it patches what they left, writes iff its id is
   * there, and either throws, which makes it the first to throw, or lets the batch go on.
   */
  lemma SequentialStep(
    reminders: seq<Reminder>, ids: seq<Id>, i: nat, patch: ReminderPatch, fails: nat -> bool, from: nat,
    before: seq<Reminder>, w: nat)
    requires i < |ids|
    requires before == SequentialUpdate(reminders, ids[..i], patch)
    requires w == from + SequentialWrites(reminders, ids[..i], patch)
    requires FirstThrow(reminders, ids, patch, fails, from, 0) >= i
    ensures SequentialUpdate(reminders, ids[..i + 1], patch) == PatchReminders(before, ids[i], patch)
    ensures !HasReminder(before, ids[i]) ==> PatchReminders(before, ids[i], patch) == before
    ensures SequentialWrites(reminders, ids[..i + 1], patch)
            == SequentialWrites(reminders, ids[..i], patch) + (if HasReminder(before, ids[i]) then 1 else 0)
    ensures HasReminder(before, ids[i]) && fails(w) ==> FirstThrow(reminders, ids, patch, fails, from, 0) == i
    ensures !(HasReminder(before, ids[i]) && fails(w)) ==> FirstThrow(reminders, ids, patch, fails, from, 0) >= i + 1
  {
    assert ids[..i + 1][..i] == ids[..i];
    assert ids[..i + 1][i] == ids[i];
    var m := FirstThrow(reminders, ids, patch, fails, from, 0);
    if HasReminder(before, ids[i]) && fails(w) {
      assert ThrowsAt(reminders, ids, patch, fails, from, i);
    } else {
      assert !ThrowsAt(reminders, ids, patch, fails, from, i);
    }
  }

  /** When none of their writes throws, the updates awaited one after another all run. */
  lemma NoThrowRunsAll(reminders: seq<Reminder>, ids: seq<Id>, patch: ReminderPatch, fails: nat -> bool, from: nat)
    requires forall k :: from <= k < from + SequentialWrites(reminders, ids, patch) ==> !fails(k)
    ensures FirstThrow(reminders, ids, patch, fails, from, 0) == |ids|
  {
    forall k | 0 <= k < |ids| ensures !ThrowsAt(reminders, ids, patch, fails, from, k) {
      assert ids[..k + 1][..k] == ids[..k];
      SequentialWritesPrefix(reminders, ids, patch, k + 1);
    }
  }

  /** A prefix of the ids makes no more writes than all of them. */
  lemma {:induction false} SequentialWritesPrefix(reminders: seq<Reminder>, ids: seq<Id>, patch: ReminderPatch, j: nat)
    requires j <= |ids|
    ensures SequentialWrites(reminders, ids[..j], patch) <= SequentialWrites(reminders, ids, patch)
    decreases |ids|
  {
    if j < |ids| {
      var init := ids[..|ids| - 1];
      assert init[..j] == ids[..j];
      SequentialWritesPrefix(reminders, init, patch, j);
    } else {
      assert ids[..j] == ids;
    }
  }

  /** The concurrent writes of `keys`, made in order from position `from` on, that succeed. */
  function Kept(keys: seq<Id>, fails: nat -> bool, from: nat): (r: seq<Id>)
    ensures |r| <= |keys|
  {
    if keys == [] then []
    else Kept(keys[..|keys| - 1], fails, from) + (if fails(from + |keys| - 1) then [] else [keys[|keys| - 1]])
  }

  /** When none of the writes throws, every key's write succeeds. */
  lemma {:induction false} KeptAll(keys: seq<Id>, fails: nat -> bool, from: nat)
    requires forall k :: from <= k < from + |keys| ==> !fails(k)
    ensures Kept(keys, fails, from) == keys
  {
    if keys != [] {
      KeptAll(keys[..|keys| - 1], fails, from);
    }
  }

  /** Two upcoming reminders, both selected. */
  const FirstReminder: Reminder := Reminder("r1", "i1", "Milk 1L", Recyclable, 0, Upcoming, 0)
  const SecondReminder: Reminder := Reminder("r2", "i2", "Rice 5kg", Dry, 0, Upcoming, 0)

  /**
   * Marking two selected reminders done at once leaves the first one upcoming, whereas doing
   * the same updates one after another completes both.
   */
  lemma BulkMarkDoneLosesUpdate()
    ensures InterleavedUpdate(Some([FirstReminder, SecondReminder]), [FirstReminder, SecondReminder], ["r1", "r2"], DonePatch)
            == Some([FirstReminder, SecondReminder.(status := Completed)])
    ensures SequentialUpdate([FirstReminder, SecondReminder], ["r1", "r2"], DonePatch)
            == [FirstReminder.(status := Completed), SecondReminder.(status := Completed)]
  {
    var s := [FirstReminder, SecondReminder];
    assert ReminderIdsDistinct(s);
    assert HasReminder(s, "r2") by { assert s[1].id == "r2"; }
    var ids: seq<Id> := ["r1", "r2"];
    assert ids[..1] == ["r1"] && ids[..1][..0] == [];
    PatchRemindersEffect(s, "r2", DonePatch);
    var concurrent := PatchReminders(s, "r2", DonePatch);
    assert concurrent == [FirstReminder, SecondReminder.(status := Completed)];
    PatchRemindersEffect(s, "r1", DonePatch);
    var once := PatchReminders(s, "r1", DonePatch);
    assert once == [FirstReminder.(status := Completed), SecondReminder];
    assert ReminderIdsDistinct(once);
    PatchRemindersEffect(once, "r2", DonePatch);
    assert SequentialUpdate(s, ids[..1], DonePatch) == once;
  }

  /**
   * Under the consistency relation, a reminder id that is not also an item id deletes nothing:
   * `deleteItem(reminder.id)` leaves both lists as they were.
   */
  lemma DeleteByReminderIdRemovesNothing(items: seq<Item>, reminders: seq<Reminder>, id: Id)
    requires RemindersReferToItems(items, reminders)
    requires !HasItem(items, id)
    ensures WithoutItem(items, id) == items
    ensures WithoutRemindersOf(reminders, id) == reminders
  {
    assert forall k :: 0 <= k < |items| ==> OtherThan(id)(items[k]);
    forall k | 0 <= k < |reminders| ensures RefersElsewhere(id)(reminders[k]) {
      assert HasItem(items, reminders[k].itemId);
    }
  }

  /** One item with its reminder, as `saveItem` stores them. */
  const OnlyItem: Item := Item("i1", "Milk 1L", Recyclable, 1.0, "pieces", 3, 0, None, None)
  const OnlyReminder: Reminder := Reminder("r1", "i1", "Milk 1L", Recyclable, 3 * MsPerDay, Upcoming, 0)

  /** Deleting that reminder from the screen passes "r1" to `deleteItem`, so the reminder stays. */
  lemma DeleteFromScreenKeepsReminder()
    ensures WithoutItem([OnlyItem], OnlyReminder.id) == [OnlyItem]
    ensures WithoutRemindersOf([OnlyReminder], OnlyReminder.id) == [OnlyReminder]
    ensures WithoutRemindersOf([OnlyReminder], OnlyReminder.itemId) == []
  {
    assert OtherThan("r1")(OnlyItem);
    assert RefersElsewhere("r1")(OnlyReminder);
    assert !RefersElsewhere("i1")(OnlyReminder);
  }

  /** Deleting the reminders of an item never brings back a reminder id. */
  lemma WithoutRemindersKeepsAbsent(reminders: seq<Reminder>, itemId: Id, id: Id)
    requires !HasReminder(reminders, id)
    ensures !HasReminder(WithoutRemindersOf(reminders, itemId), id)
  {
    var r := WithoutRemindersOf(reminders, itemId);
    Seqs.FilterMembers(RefersElsewhere(itemId), reminders);
    forall k | 0 <= k < |r| ensures r[k].id != id {
      assert r[k] in reminders;
    }
  }

  /** The first stored reminder with that id (`reminders.find(r => r.id === id)`). */
  function StoredReminder(reminders: seq<Reminder>, id: Id): (r: Option<Reminder>)
    ensures r.Some? <==> HasReminder(reminders, id)
    ensures r.Some? ==> r.value in reminders && r.value.id == id
  {
    Seqs.Find((x: Reminder) => x.id == id, reminders)
  }

  /** Whether `id` names a displayed reminder (`reminders.find(r => r.id === id)` succeeds). */
  predicate Shown(views: seq<ReminderView>, id: Id) {
    exists k :: 0 <= k < |views| && views[k].id == id
  }

  /** The selected ids the bulk delete passes on: those naming a displayed reminder. */
  function ShownIds(views: seq<ReminderView>, ids: seq<Id>): seq<Id> {
    Seqs.Filter((id: Id) => Shown(views, id), ids)
  }

  class ReminderList {
    const store: StorageService
    /** The displayed reminders. */
    var reminders: seq<ReminderView>
    var selectedIds: seq<Id>
    var loading: bool

    constructor (store: StorageService)
      ensures this.store == store
      ensures reminders == [] && selectedIds == [] && loading
    {
      this.store := store;
      reminders, selectedIds, loading := [], [], true;
    }

    /** The selected ids whose concurrent update would write successfully, from the store's next write on. */
    function WrittenNow(ids: seq<Id>): seq<Id>
      reads store`remindersEntry, store`writes
    {
      Written(store.GetReminders(), ids, store.fails, store.writes)
    }

    /** Where updates of `ids` awaited one after another, from the store's next write on, would stop. */
    function StopNow(ids: seq<Id>, patch: ReminderPatch): nat
      reads store`remindersEntry, store`writes
    {
      FirstThrow(store.GetReminders(), ids, patch, store.fails, store.writes, 0)
    }

    /** `loadReminders`: show the stored reminders as of `now`. */
    method LoadReminders(now: Time)
      modifies this`reminders, this`loading
      ensures reminders == Transform(store.GetReminders(), now) && !loading
    {
      var stored := store.GetReminders();
      reminders := Transform(stored, now);
      loading := false;
    }

    /** `handleMarkDone`: complete the reminder, reload, and drop it from the selection. */
    method HandleMarkDone(id: Id, now: Time)
      modifies this`reminders, this`loading, this`selectedIds, store`remindersEntry, store`writes
      ensures store.GetReminders() ==
        if store.fails(old(store.writes)) then old(store.GetReminders()) else PatchReminders(old(store.GetReminders()), id, DonePatch)
      ensures store.fails(old(store.writes)) ==> store.remindersEntry == old(store.remindersEntry)
      ensures !(store.fails(old(store.writes)) && HasReminder(old(store.GetReminders()), id)) ==>
        reminders == Transform(store.GetReminders(), now) && !loading && selectedIds == Deselect(old(selectedIds), id)
      ensures store.fails(old(store.writes)) && HasReminder(old(store.GetReminders()), id) ==>
        reminders == old(reminders) && loading == old(loading) && selectedIds == old(selectedIds)
    {
      var result := store.UpdateReminder(id, DonePatch);
      if result.Threw? {
        return;
      }
      LoadReminders(now);
      selectedIds := Deselect(selectedIds, id);
    }

    /** `handleSnooze`: make the reminder due `hours` after `now` and upcoming again, then reload. */
    method HandleSnooze(id: Id, hours: int, now: Time)
      modifies this`reminders, this`loading, store`remindersEntry, store`writes
      ensures store.GetReminders() ==
        if store.fails(old(store.writes)) then old(store.GetReminders())
        else PatchReminders(old(store.GetReminders()), id, SnoozePatch(AddHours(now, hours)))
      ensures store.fails(old(store.writes)) ==> store.remindersEntry == old(store.remindersEntry)
      ensures !(store.fails(old(store.writes)) && HasReminder(old(store.GetReminders()), id)) ==>
        reminders == Transform(store.GetReminders(), now) && !loading
      ensures store.fails(old(store.writes)) && HasReminder(old(store.GetReminders()), id) ==>
        reminders == old(reminders) && loading == old(loading)
    {
      var newDueAt := AddHours(now, hours);
      var result := store.UpdateReminder(id, SnoozePatch(newDueAt));
      if result.Threw? {
        return;
      }
      LoadReminders(now);
    }

    /**
     * `handleDelete` as written: when `id` is displayed, it passes the reminder's own id to
     * `deleteItem`, which removes the item with that id and the reminders referring to it.
     */
    method HandleDelete(id: Id, now: Time)
      modifies this`reminders, this`loading, this`selectedIds, store`itemsEntry, store`remindersEntry, store`writes
      ensures !Shown(old(reminders), id) ==> unchanged(this, store)
      ensures Shown(old(reminders), id) ==>
        && store.writes == old(store.writes) + (if store.fails(old(store.writes)) then 1 else 2)
        && store.itemsEntry == (if store.fails(old(store.writes)) then old(store.itemsEntry)
                                else Some(WithoutItem(old(store.GetItems()), id)))
        && store.remindersEntry == (if store.fails(old(store.writes)) || store.fails(old(store.writes) + 1)
                                    then old(store.remindersEntry)
                                    else Some(WithoutRemindersOf(old(store.GetReminders()), id)))
      ensures Shown(old(reminders), id) && !store.fails(old(store.writes)) && !store.fails(old(store.writes) + 1) ==>
        reminders == Transform(store.GetReminders(), now) && !loading && selectedIds == Deselect(old(selectedIds), id)
      ensures Shown(old(reminders), id) && (store.fails(old(store.writes)) || store.fails(old(store.writes) + 1)) ==>
        reminders == old(reminders) && loading == old(loading) && selectedIds == old(selectedIds)
    {
      var reminder := Seqs.Find((v: ReminderView) => v.id == id, reminders);
      if reminder.None? {
        return;
      }
      var result := store.DeleteItem(reminder.value.id);
      if result.Threw? {
        return;
      }
      LoadReminders(now);
      selectedIds := Deselect(selectedIds, id);
    }

    /**
     * `handleDelete` as intended: delete the item the stored reminder belongs to, which takes
     * the reminder with it.
     */
    method HandleDeleteByItem(id: Id, now: Time)
      modifies this`reminders, this`loading, this`selectedIds, store`itemsEntry, store`remindersEntry, store`writes
      ensures !HasReminder(old(store.GetReminders()), id) ==> unchanged(this, store)
      ensures HasReminder(old(store.GetReminders()), id) ==>
        var itemId := StoredReminder(old(store.GetReminders()), id).value.itemId;
        && store.writes == old(store.writes) + (if store.fails(old(store.writes)) then 1 else 2)
        && store.itemsEntry == (if store.fails(old(store.writes)) then old(store.itemsEntry)
                                else Some(WithoutItem(old(store.GetItems()), itemId)))
        && store.remindersEntry == (if store.fails(old(store.writes)) || store.fails(old(store.writes) + 1)
                                    then old(store.remindersEntry)
                                    else Some(WithoutRemindersOf(old(store.GetReminders()), itemId)))
      ensures HasReminder(old(store.GetReminders()), id) && !store.fails(old(store.writes)) && !store.fails(old(store.writes) + 1) ==>
        reminders == Transform(store.GetReminders(), now) && !loading && selectedIds == Deselect(old(selectedIds), id)
      ensures HasReminder(old(store.GetReminders()), id) && (store.fails(old(store.writes)) || store.fails(old(store.writes) + 1)) ==>
        reminders == old(reminders) && loading == old(loading) && selectedIds == old(selectedIds)
      ensures !store.fails(old(store.writes)) && !store.fails(old(store.writes) + 1) && ReminderIdsDistinct(old(store.GetReminders())) ==>
        !HasReminder(store.GetReminders(), id)
      ensures old(store.Valid()) ==>
        (store.Valid() <==> !(HasReminder(old(store.GetReminders()), id) && !store.fails(old(store.writes)) && store.fails(old(store.writes) + 1)))
    {
      var stored := StoredReminder(store.GetReminders(), id);
      if stored.None? {
        return;
      }
      ghost var owner :| 0 <= owner < |store.GetReminders()| && store.GetReminders()[owner] == stored.value;
      var itemId := stored.value.itemId;
      var result := store.DeleteItem(itemId);
      if old(store.Valid()) {
        assert HasItem(old(store.GetItems()), old(store.GetReminders())[owner].itemId);
      }
      if result.Threw? {
        return;
      }
      if ReminderIdsDistinct(old(store.GetReminders())) {
        RemovesOwnReminder(old(store.GetReminders()), stored.value);
      }
      LoadReminders(now);
      selectedIds := Deselect(selectedIds, id);
    }

    /** `handleSelectAll`: select exactly the given list's reminders, in its order. */
    method HandleSelectAll(list: seq<ReminderView>)
      modifies this`selectedIds
      ensures selectedIds == Ids(list)
    {
      selectedIds := Ids(list);
    }

    /** `handleSelectNone`. */
    method HandleSelectNone()
      modifies this`selectedIds
      ensures selectedIds == []
    {
      selectedIds := [];
    }

    /** `handleToggleSelect`. */
    method HandleToggleSelect(id: Id)
      modifies this`selectedIds
      ensures selectedIds == Toggle(old(selectedIds), id)
    {
      selectedIds := Toggle(selectedIds, id);
    }

    /**
     * The `Promise.all` of `updateReminder` calls: every call reads the stored list first,
     * then each call, in order, patches what it read and writes it back. A failing write
     * rejects its call; the others still run.
     */
    method InterleavedUpdates(ids: seq<Id>, patch: ReminderPatch) returns (threw: bool)
      modifies store`remindersEntry, store`writes
      ensures store.remindersEntry
              == InterleavedUpdate(old(store.remindersEntry), old(store.GetReminders()), old(WrittenNow(ids)), patch)
      ensures store.writes == old(store.writes) + PresentCount(old(store.GetReminders()), ids)
      ensures threw <==> |old(WrittenNow(ids))| < PresentCount(old(store.GetReminders()), ids)
    {
      var snapshot := store.GetReminders();
      threw := false;
      var i := 0;
      while i < |ids|
        invariant 0 <= i <= |ids|
        invariant store.writes == old(store.writes) + PresentCount(snapshot, ids[..i])
        invariant store.remindersEntry
                  == InterleavedUpdate(old(store.remindersEntry), snapshot, Written(snapshot, ids[..i], store.fails, old(store.writes)), patch)
        invariant threw <==> |Written(snapshot, ids[..i], store.fails, old(store.writes))| < PresentCount(snapshot, ids[..i])
      {
        ghost var before := store.remindersEntry;
        var result := store.FinishUpdateReminder(snapshot, ids[i], patch);
        InterleavedStep(old(store.remindersEntry), snapshot, ids, i, patch, store.fails, old(store.writes),
                        before, store.remindersEntry, threw, result.Ok?);
        if result.Threw? {
          threw := true;
        }
        i := i + 1;
      }
      assert ids[..i] == ids;
    }

    /** The updates awaited one after another, stopping at the first write that throws. */
    method SequentialUpdates(ids: seq<Id>, patch: ReminderPatch) returns (threw: bool)
      modifies store`remindersEntry, store`writes
      ensures var m := old(StopNow(ids, patch));
        && store.GetReminders() == SequentialUpdate(old(store.GetReminders()), ids[..m], patch)
        && store.writes == old(store.writes) + SequentialWrites(old(store.GetReminders()), ids[..m], patch) + (if m < |ids| then 1 else 0)
        && (threw <==> m < |ids|)
    {
      ghost var start := store.GetReminders();
      ghost var from := store.writes;
      var i := 0;
      while i < |ids|
        invariant 0 <= i <= |ids|
        invariant store.GetReminders() == SequentialUpdate(start, ids[..i], patch)
        invariant store.writes == from + SequentialWrites(start, ids[..i], patch)
        invariant FirstThrow(start, ids, patch, store.fails, from, 0) >= i
      {
        SequentialStep(start, ids, i, patch, store.fails, from, store.GetReminders(), store.writes);
        var result := store.UpdateReminder(ids[i], patch);
        if result.Threw? {
          return true;
        }
        i := i + 1;
      }
      assert ids[..i] == ids;
      threw := false;
    }

    /** `handleBulkMarkDone` as written: concurrent updates, then reload and clear the selection. */
    method HandleBulkMarkDone(now: Time)
      modifies this`reminders, this`loading, this`selectedIds, store`remindersEntry, store`writes
      ensures store.remindersEntry == InterleavedUpdate(old(store.remindersEntry), old(store.GetReminders()),
                                                        old(WrittenNow(selectedIds)), DonePatch)
      ensures |old(WrittenNow(selectedIds))| == PresentCount(old(store.GetReminders()), old(selectedIds)) ==>
        reminders == Transform(store.GetReminders(), now) && !loading && selectedIds == []
      ensures |old(WrittenNow(selectedIds))| < PresentCount(old(store.GetReminders()), old(selectedIds)) ==>
        reminders == old(reminders) && loading == old(loading) && selectedIds == old(selectedIds)
    {
      var threw := InterleavedUpdates(selectedIds, DonePatch);
      if threw {
        return;
      }
      LoadReminders(now);
      selectedIds := [];
    }

    /** `handleBulkMarkDone` with the updates awaited one after another. */
    method HandleBulkMarkDoneInOrder(now: Time)
      modifies this`reminders, this`loading, this`selectedIds, store`remindersEntry, store`writes
      ensures var m := old(StopNow(selectedIds, DonePatch));
        store.GetReminders() == SequentialUpdate(old(store.GetReminders()), old(selectedIds)[..m], DonePatch)
      ensures old(StopNow(selectedIds, DonePatch)) == |old(selectedIds)| ==>
        reminders == Transform(store.GetReminders(), now) && !loading && selectedIds == []
      ensures old(StopNow(selectedIds, DonePatch)) < |old(selectedIds)| ==>
        reminders == old(reminders) && loading == old(loading) && selectedIds == old(selectedIds)
    {
      var threw := SequentialUpdates(selectedIds, DonePatch);
      if threw {
        return;
      }
      LoadReminders(now);
      selectedIds := [];
    }

    /** `handleBulkSnooze` as written: one due date for all, concurrent updates. */
    method HandleBulkSnooze(hours: int, now: Time)
      modifies this`reminders, this`loading, this`selectedIds, store`remindersEntry, store`writes
      ensures store.remindersEntry == InterleavedUpdate(old(store.remindersEntry), old(store.GetReminders()),
                                                        old(WrittenNow(selectedIds)), SnoozePatch(AddHours(now, hours)))
      ensures |old(WrittenNow(selectedIds))| == PresentCount(old(store.GetReminders()), old(selectedIds)) ==>
        reminders == Transform(store.GetReminders(), now) && !loading && selectedIds == []
      ensures |old(WrittenNow(selectedIds))| < PresentCount(old(store.GetReminders()), old(selectedIds)) ==>
        reminders == old(reminders) && loading == old(loading) && selectedIds == old(selectedIds)
    {
      var newDueAt := AddHours(now, hours);
      var threw := InterleavedUpdates(selectedIds, SnoozePatch(newDueAt));
      if threw {
        return;
      }
      LoadReminders(now);
      selectedIds := [];
    }

    /** `handleBulkSnooze` with the updates awaited one after another. */
    method HandleBulkSnoozeInOrder(hours: int, now: Time)
      modifies this`reminders, this`loading, this`selectedIds, store`remindersEntry, store`writes
      ensures var m := old(StopNow(selectedIds, SnoozePatch(AddHours(now, hours))));
        store.GetReminders() == SequentialUpdate(old(store.GetReminders()), old(selectedIds)[..m], SnoozePatch(AddHours(now, hours)))
      ensures old(StopNow(selectedIds, SnoozePatch(AddHours(now, hours)))) == |old(selectedIds)| ==>
        reminders == Transform(store.GetReminders(), now) && !loading && selectedIds == []
      ensures old(StopNow(selectedIds, SnoozePatch(AddHours(now, hours)))) < |old(selectedIds)| ==>
        reminders == old(reminders) && loading == old(loading) && selectedIds == old(selectedIds)
    {
      var newDueAt := AddHours(now, hours);
      var threw := SequentialUpdates(selectedIds, SnoozePatch(newDueAt));
      if threw {
        return;
      }
      LoadReminders(now);
      selectedIds := [];
    }

    /**
     * `handleBulkDelete` as written: `deleteItem(reminder.id)` for every displayed selected
     * reminder, all at once. Every call reads the items first; then each call writes the
     * items it read minus its id and reads the reminders; then each call whose items write
     * succeeded writes the reminders it read minus those referring to its id. The last
     * successful write of each list is what remains; any failing write rejects the batch.
     */
    method HandleBulkDelete(now: Time)
      modifies this`reminders, this`loading, this`selectedIds, store`itemsEntry, store`remindersEntry, store`writes
      ensures var keys := ShownIds(old(reminders), old(selectedIds));
        var deleted := Kept(keys, store.fails, old(store.writes));
        && store.itemsEntry == (if deleted == [] then old(store.itemsEntry)
                                else Some(WithoutItem(old(store.GetItems()), deleted[|deleted| - 1])))
        && store.writes == old(store.writes) + |keys| + |deleted|
      ensures var keys := ShownIds(old(reminders), old(selectedIds));
        var cleared := Kept(Kept(keys, store.fails, old(store.writes)), store.fails, old(store.writes) + |keys|);
        && store.remindersEntry == (if cleared == [] then old(store.remindersEntry)
                                    else Some(WithoutRemindersOf(old(store.GetReminders()), cleared[|cleared| - 1])))
        && (|cleared| == |keys| ==> reminders == Transform(store.GetReminders(), now) && !loading && selectedIds == [])
        && (|cleared| < |keys| ==> reminders == old(reminders) && loading == old(loading) && selectedIds == old(selectedIds))
    {
      var keys := ShownIds(reminders, selectedIds);
      var itemsSnapshot := store.GetItems();
      var remindersSnapshot := store.GetReminders();
      var deleted := WriteItemsEach(itemsSnapshot, keys);
      var cleared := WriteRemindersEach(remindersSnapshot, deleted);
      if |cleared| < |keys| {
        return;
      }
      LoadReminders(now);
      selectedIds := [];
    }

    /**
     * Each call in turn writes `snapshot` without its own key; a failing write rejects that
     * call. `done` are the keys whose write succeeded.
     */
    method WriteItemsEach(snapshot: seq<Item>, keys: seq<Id>) returns (done: seq<Id>)
      modifies store`itemsEntry, store`writes
      ensures done == Kept(keys, store.fails, old(store.writes))
      ensures store.writes == old(store.writes) + |keys|
      ensures store.itemsEntry == if done == [] then old(store.itemsEntry) else Some(WithoutItem(snapshot, done[|done| - 1]))
    {
      done := [];
      var i := 0;
      while i < |keys|
        invariant 0 <= i <= |keys|
        invariant done == Kept(keys[..i], store.fails, old(store.writes))
        invariant store.writes == old(store.writes) + i
        invariant store.itemsEntry == if done == [] then old(store.itemsEntry) else Some(WithoutItem(snapshot, done[|done| - 1]))
      {
        assert keys[..i + 1][..i] == keys[..i];
        var ok := store.PutItems(WithoutItem(snapshot, keys[i]));
        if ok {
          done := done + [keys[i]];
        }
        i := i + 1;
      }
      assert keys[..i] == keys;
    }

    /** Each call in turn writes `snapshot` without the reminders referring to its own key. */
    method WriteRemindersEach(snapshot: seq<Reminder>, keys: seq<Id>) returns (done: seq<Id>)
      modifies store`remindersEntry, store`writes
      ensures done == Kept(keys, store.fails, old(store.writes))
      ensures store.writes == old(store.writes) + |keys|
      ensures store.remindersEntry == if done == [] then old(store.remindersEntry)
                                      else Some(WithoutRemindersOf(snapshot, done[|done| - 1]))
    {
      done := [];
      var i := 0;
      while i < |keys|
        invariant 0 <= i <= |keys|
        invariant done == Kept(keys[..i], store.fails, old(store.writes))
        invariant store.writes == old(store.writes) + i
        invariant store.remindersEntry == if done == [] then old(store.remindersEntry)
                                          else Some(WithoutRemindersOf(snapshot, done[|done| - 1]))
      {
        assert keys[..i + 1][..i] == keys[..i];
        var ok := store.PutReminders(WithoutRemindersOf(snapshot, keys[i]));
        if ok {
          done := done + [keys[i]];
        }
        i := i + 1;
      }
      assert keys[..i] == keys;
    }

    /**
     * `handleBulkDelete` as intended: for each selected id in turn, delete the item its stored
     * reminder belongs to, stopping at the first call that throws.
     */
    method HandleBulkDeleteByItem(now: Time)
      modifies this`reminders, this`loading, this`selectedIds, store`itemsEntry, store`remindersEntry, store`writes
      ensures store.writes >= old(store.writes)
      ensures (forall k :: old(store.writes) <= k < store.writes ==> !store.fails(k)) ==>
        && reminders == Transform(store.GetReminders(), now) && !loading && selectedIds == []
        && (ReminderIdsDistinct(old(store.GetReminders())) ==>
              forall k :: 0 <= k < |old(selectedIds)| ==> !HasReminder(store.GetReminders(), old(selectedIds)[k]))
        && (old(store.Valid()) ==> store.Valid())
      ensures !(forall k :: old(store.writes) <= k < store.writes ==> !store.fails(k)) ==>
        reminders == old(reminders) && loading == old(loading) && selectedIds == old(selectedIds)
    {
      var ids := selectedIds;
      var i := 0;
      while i < |ids|
        invariant 0 <= i <= |ids|
        invariant store.writes >= old(store.writes)
        invariant forall k :: old(store.writes) <= k < store.writes ==> !store.fails(k)
        invariant ReminderIdsDistinct(old(store.GetReminders())) ==>
          ReminderIdsDistinct(store.GetReminders()) && forall k :: 0 <= k < i ==> !HasReminder(store.GetReminders(), ids[k])
        invariant old(store.Valid()) ==> store.Valid()
        invariant reminders == old(reminders) && loading == old(loading) && selectedIds == old(selectedIds)
      {
        var ok := DeleteOwnerOf(ids[i]);
        if !ok {
          return;
        }
        i := i + 1;
      }
      LoadReminders(now);
      selectedIds := [];
    }

    /**
     * One turn of `handleBulkDelete` as intended: `deleteItem` of the item the stored reminder
     * `id` belongs to, if there is one; `ok` says that none of its writes threw.
     */
    method DeleteOwnerOf(id: Id) returns (ok: bool)
      modifies store`itemsEntry, store`remindersEntry, store`writes
      ensures store.writes >= old(store.writes)
      ensures ok <==> forall k :: old(store.writes) <= k < store.writes ==> !store.fails(k)
      ensures ok && ReminderIdsDistinct(old(store.GetReminders())) ==>
        && ReminderIdsDistinct(store.GetReminders())
        && !HasReminder(store.GetReminders(), id)
        && forall x :: !HasReminder(old(store.GetReminders()), x) ==> !HasReminder(store.GetReminders(), x)
      ensures ok && old(store.Valid()) ==> store.Valid()
    {
      var stored := StoredReminder(store.GetReminders(), id);
      if stored.None? {
        return true;
      }
      ghost var before := store.GetReminders();
      ghost var w := store.writes;
      var result := store.DeleteItem(stored.value.itemId);
      if result.Threw? {
        assert store.fails(w) || store.fails(w + 1);
        assert !store.fails(w) ==> w + 1 < store.writes;
        return false;
      }
      if ReminderIdsDistinct(before) {
        RemovesOwnReminder(before, stored.value);
        Seqs.FilterDistinct(ReminderKey, RefersElsewhere(stored.value.itemId), before);
        forall x | !HasReminder(before, x) ensures !HasReminder(store.GetReminders(), x) {
          WithoutRemindersKeepsAbsent(before, stored.value.itemId, x);
        }
      }
      ok := true;
    }
  }

  /** With unique reminder ids, deleting the reminders of a stored reminder's item removes that reminder. */
  lemma RemovesOwnReminder(reminders: seq<Reminder>, r: Reminder)
    requires ReminderIdsDistinct(reminders) && r in reminders
    ensures !HasReminder(WithoutRemindersOf(reminders, r.itemId), r.id)
  {
    var rest := WithoutRemindersOf(reminders, r.itemId);
    Seqs.FilterMembers(RefersElsewhere(r.itemId), reminders);
    var i :| 0 <= i < |reminders| && reminders[i] == r;
    forall k | 0 <= k < |rest| ensures rest[k].id != r.id {
      var x := rest[k];
      assert x in reminders && x.itemId != r.itemId;
      var j :| 0 <= j < |reminders| && reminders[j] == x;
      if i < j {
        assert ReminderKey(reminders[i]) != ReminderKey(reminders[j]);
      } else if j < i {
        assert ReminderKey(reminders[j]) != ReminderKey(reminders[i]);
      }
    }
  }
}
