# Clean-sort waste reminders in Dafny

Clean-sort is a single-page app for sorting household waste. It has these parts:

- **Store.** A small local store (`StorageService`) keeps the items the user owns. Each item has a disposal reminder, and the store also holds a few settings.
- **Reminders screen.** It shows reminders in three tabs. The user can complete them, snooze them, select them and delete them, one at a time or in bulk.
- **Dashboard.** It derives counters and a preview list from the stored items.
- **Pages.** The items, add-item and scan pages create and filter items. The scan page reads quantities from receipt text.
- **Lookups.** Several read-only tables drive the guides and settings screens: disposal rules per region, safety guides, city prompt texts, the bottom navigation and the onboarding steps. Lookups and filters run over these tables.

This project models that core, one module per source file:

| module | file | source |
|---|---|---|
| `Storage` | `storage.dfy` | `lib/storage.ts` |
| `Reminders` | `reminders.dfy` | `hooks/use-reminders.ts` |
| `Dashboard` | `dashboard.dfy` | `hooks/use-dashboard-data.ts` |
| `Categories`, `Constants` | `categories.dfy`, `constants.dfy` | `lib/db.ts` (the `WasteCategory` type) and `lib/constants.ts` |
| `ParsedItems` | `parsed_items.dfy` | `components/parsed-items-list.tsx` |
| `ScanPage` | `scan_page.dfy` | `src/pages/ScanPage.tsx` |
| `AddItemPage` | `add_item_page.dfy` | `src/pages/AddItemPage.tsx` |
| `ItemsPage` | `items_page.dfy` | `src/pages/ItemsPage.tsx` |
| `DisposalRules` | `disposal_rules.dfy` | `lib/disposal-rules-service.ts` |
| `DisposalGuides` | `disposal_guides.dfy` | `hooks/use-disposal-guides.ts` |
| `RulesService` | `rules_service.dfy` | `src/services/disposal-rules-service.ts` |
| `SafetyGuides` | `safety_guides.dfy` | `lib/disposal-safety-guides.ts` |
| `GuidesPage` | `guides_page.dfy` | `src/pages/GuidesPage.tsx` |
| `CityPrompts` | `city_prompts.dfy` | `lib/city-prompts.ts` |
| `BottomNav` | `bottom_nav.dfy` | `components/bottom-nav.tsx` |
| `Onboarding` | `onboarding.dfy` | `components/onboarding.tsx` |

Four modules are shared building blocks:

- `Wrappers`: `Option`, and `Attempt`, which is the outcome of a call that may throw.
- `Seqs`: filter, find, find-index replacement, subsequences, distinctness and de-duplication.
- `Text`: ASCII lower-casing, substring search, whitespace trimming and joining.
- `Categories`: the category keys.

## How the model is built

- **Form follows the source.**
  - Code that changes state step by step is a `class` whose methods declare what they modify. This covers the store, the screens' React state and the onboarding flow.
  - The filters, lookups and tables are functions and lemmas.
- **The store.**
  - The five local-storage keys are five optional fields. `None` means the key is absent, and each getter falls back to its default for it.
  - Every `localStorage.setItem` call is one write, and each write may throw on its own, which stands for a full or disabled local storage. The store is given a failure schedule `fails`: the write made after `n` earlier writes throws exactly when `fails(n)`. The counter `writes` says how many writes have been made.
  - So an operation that writes twice, such as `saveItem` or `deleteItem`, can throw after its first write has already taken effect. Its contract states the outcome for each combination of failing writes.
  - Each mutator reads the whole list, changes it and writes it back, as the source does.
- **Fresh values.** `generateId()` and the `new Date()` reading taken beside it become a `Fresh(id, at)` parameter. Claims that need unused identifiers say so in their own hypothesis; the methods themselves demand nothing.
- **Consistency.** The item and reminder lists together satisfy `Storage.Consistent`, which requires:
  - identifiers are unique;
  - every reminder refers to a stored item;
  - every item has exactly one reminder.

  Saving, batch saving, cascade deletion and patches that keep the identifiers all preserve it.
- **Time.** Time is an integer count of milliseconds. A calendar day is 24 hours.
- **Concurrent bulk updates.** The bulk handlers of the reminders screen start one store call per selected id and await them together. JavaScript runs each call up to its first `await` before the next call starts, so all the calls read the stored list before any of them writes. The model runs the calls in exactly that order. That is how the first finding below arises.

## Model

| member | source | states |
|---|---|---|
| Categories.Parse | lib/db.ts:42-48 | the category whose key is the text; none when no category has that key |
| Categories.ParseKey | lib/db.ts:42-48 | parsing a category's key gives back that category |
| Categories.KeyInjective | lib/db.ts:42-48 | two categories with the same key are the same category |
| Categories.AllCategoriesComplete | lib/db.ts:42-48 | the list of six categories contains every category |
| Constants.DefaultInterval | lib/constants.ts:11-47 | every category's default disposal interval is at least one day |
| Constants.DefaultIntervals | lib/constants.ts:11-47 | the defaults are dry 7, wet 1, medical 1, hazardous 30, recyclable 7, e-waste 30 |
| Constants.QuickIntervalsShape | lib/constants.ts:50-56 | five quick intervals, strictly increasing, each at least one day |
| Constants.SnoozeOptionsShape | lib/constants.ts:58-62 | three snooze choices, strictly increasing, all positive |
| Constants.SampleItemsDistinctIds | lib/constants.ts:65-90 | the demo items have pairwise different ids |
| Storage.NewReminders | lib/storage.ts:107-109 | one reminder per new item, in item order, each referring to its item, with the generated id and status upcoming |
| Storage.SaveItemKeepsConsistent | lib/storage.ts:54-71 | appending a new item and its reminder with unused ids keeps the lists consistent |
| Storage.BatchSplit | lib/storage.ts:91-109 | a batch's items and reminders are those of all but its last input followed by the last one's |
| Storage.SaveBatchKeepsConsistent | lib/storage.ts:88-109 | appending a whole batch of items and their reminders with unused, pairwise different ids keeps the lists consistent |
| Storage.DeleteItemKeepsConsistent | lib/storage.ts:135-147 | removing an item and every reminder that refers to it keeps the lists consistent |
| Storage.PatchItemsKeepsConsistent | lib/storage.ts:120-128 | an item patch that does not set the id keeps the lists consistent |
| Storage.PatchRemindersKeepsConsistent | lib/storage.ts:186-194 | a reminder patch that sets neither id keeps the lists consistent |
| Storage.PatchRemindersAt | lib/storage.ts:189-192 | the reminder `updateReminder` patches is the first one with that id |
| Storage.ApplyReminderPatchIdempotent | lib/storage.ts:192 | spreading the same patch over a reminder twice is spreading it once |
| Storage.PatchRemindersEffect | lib/storage.ts:186-194 | with unique ids, the update keeps the length, patches the reminder with that id and leaves every other reminder as it was |
| Storage.PatchRemindersTwice | lib/storage.ts:186-194 | the same update applied twice, with a patch that keeps the id, stores the same list as applying it once; so marking a reminder done twice is marking it done once |
| Storage.PatchItemsAt | lib/storage.ts:122-126 | for a stored id, `updateItem` patches the first item with that id; every earlier item has another id, and every other position is left as it was |
| Storage.PatchItemsEffect | lib/storage.ts:120-128 | with unique item ids, the update keeps the length, patches the item with that id and leaves every other item as it was |
| Storage.OrphanItem | lib/storage.ts:62-71 | an item stored without a reminder breaks consistency; this is the state `saveItem` leaves when its items write succeeds and its reminder write throws |
| Storage.OrphanBatchItem | lib/storage.ts:99-109 | a batch whose items are all stored but whose reminders stop after the first `j` of them, for `j` below the batch size, breaks consistency |
| Storage.DanglingReminder | lib/storage.ts:137-142 | removing a stored item while keeping its reminders leaves a reminder that refers to no item; this is the state `deleteItem` leaves when its second write throws |
| Storage.Run | lib/storage.ts:107-109 | how many writes in a row succeed from a given position, at most `n`: every write before that count succeeds, and when the count is below `n` the next write throws |
| Storage.StorageService.constructor | lib/storage.ts:27-32 | a store over empty local storage: all five keys absent |
| Storage.StorageService.GetOnboardingStatus | lib/storage.ts:238-246 | onboarding counts as done exactly when the stored value is "completed" |
| Storage.StorageService.GetSelectedCity | lib/storage.ts:258-266 | the stored city, or "Bengaluru, Karnataka" when the key is absent or empty; never empty |
| Storage.StorageService.PutItems | lib/storage.ts:66 | one write: the items key holds the new list unless the write at this position throws, in which case it is unchanged |
| Storage.StorageService.PutReminders | lib/storage.ts:177 | one write: the reminders key holds the new list unless the write at this position throws, in which case it is unchanged |
| Storage.StorageService.SaveItem | lib/storage.ts:45-81 | as written: writes the items with the new item (:66), then the reminders with its reminder (:71). When the first write throws, nothing changes. When only the second throws, the item stays stored without its reminder. For unused ids the store stays consistent exactly unless that happens. The new item is returned only when neither write throws |
| Storage.StorageService.SaveItemRollingBack | lib/storage.ts:45-81 | corrected: the same two writes, and when the reminder write throws the old item list is written back. The stored items are the old ones unless the item write succeeded and nothing needed undoing, or the undo also threw; the store stays consistent unless that undo throws |
| Storage.StorageService.SaveMultipleItems | lib/storage.ts:83-118 | as written: writes all items at once (:102), then one reminder per new item in order (:107-109), stopping at the first write that throws. When the items write throws, nothing changes. Otherwise the reminders of exactly the first `Run` new items are stored. The new items are returned only when every write succeeds. For unused ids the store is consistent afterwards exactly when the items write throws or every reminder write succeeds |
| Storage.StorageService.CreateRemindersInOrder | lib/storage.ts:107-109 | the `for … await createReminder` loop: appends the reminders of the first `Run` new items, in order, and stops at the first write that throws, which is the only write made after them |
| Storage.StorageService.BatchOutcome | lib/storage.ts:99-109 | with a whole batch of items stored over a consistent store, the store is consistent exactly when every one of their reminders is stored |
| Storage.StorageService.SaveMultipleItemsRollingBack | lib/storage.ts:83-118 | corrected: when a reminder write throws, the old reminders and then the old items are written back. A failure-free run stores everything and returns the new items. A partial one throws, and each undo write that succeeds restores its list. The store stays consistent unless an undo write throws |
| Storage.StorageService.UpdateItem | lib/storage.ts:120-133 | for a stored id, one write: patches the first item with that id, or throws and changes nothing; with unique item ids, exactly that item changes; a missing id writes nothing and succeeds |
| Storage.StorageService.DeleteItem | lib/storage.ts:135-147 | as written: writes the items without that id (:139), then the reminders without those referring to it (:142). Either write may throw, and one that throws ends the call. Consistency is kept unless the second write throws after a stored item was removed |
| Storage.StorageService.DeleteItemRemindersFirst | lib/storage.ts:135-147 | corrected: the item's reminders are removed before the item, so whichever write throws, every stored reminder still refers to a stored item; consistency is kept when both writes succeed |
| Storage.StorageService.CreateReminder | lib/storage.ts:160-184 | appends a reminder due `interval` days after the clock reading taken at creation (not after the item's `createdAt`), status upcoming |
| Storage.StorageService.UpdateReminder | lib/storage.ts:186-199 | for a stored id, one write: patches the first reminder with that id, or throws and changes nothing; a missing id writes nothing and succeeds |
| Storage.StorageService.FinishUpdateReminder | lib/storage.ts:189-194 | the same update carried out on an earlier read of the list |
| Storage.StorageService.DeleteRemindersByItemId | lib/storage.ts:201-210 | one write: stores the reminders without those referring to the item, or throws and keeps them |
| Storage.StorageService.SaveSettings | lib/storage.ts:223-230 | replaces the settings record, or throws and keeps it |
| Storage.StorageService.SetOnboardingCompleted | lib/storage.ts:248-255 | afterwards onboarding counts as done, unless the write throws |
| Storage.StorageService.SetSelectedCity | lib/storage.ts:268-275 | stores the city; a non-empty city is what the getter then returns |
| Storage.StorageService.ClearAllData | lib/storage.ts:278-289 | all five keys are removed and every getter returns its default |
| Reminders.Transform | hooks/use-reminders.ts:22-29 | one view per stored reminder, in order: completed iff the status is completed; overdue iff the status is overdue, or it is upcoming and already due |
| Reminders.CompletedIsNotOverdue | hooks/use-reminders.ts:27-28 | a completed reminder is never shown as overdue |
| Reminders.TabsPartition | hooks/use-reminders.ts:40-42 | every reminder is in exactly one of the upcoming, completed and missed tabs, and the tab sizes add up to the number of reminders |
| Reminders.OverdueIsMonotone | hooks/use-reminders.ts:28 | a reminder that is overdue stays overdue later |
| Reminders.MarkDoneShowsCompleted | hooks/use-reminders.ts:44-48 | after a stored reminder is marked done, the reload lists it under the completed tab |
| Reminders.SnoozeShowsUpcoming | hooks/use-reminders.ts:54-61 | after a snooze of any non-negative length, the reminder is listed as upcoming, whatever its old status, completed included |
| Reminders.Toggle | hooks/use-reminders.ts:96-102 | toggling flips whether the id is selected and leaves every other id as it was |
| Reminders.DeselectRemovesOnly | hooks/use-reminders.ts:48 | deselecting removes that id and only that id |
| Reminders.ToggleKeepsNoDuplicates | hooks/use-reminders.ts:96-102 | toggling keeps the selection free of duplicates |
| Reminders.ToggleTwice | hooks/use-reminders.ts:96-102 | toggling the same id twice selects the same ids again; for an unselected id the selection is restored exactly |
| Reminders.Ids | hooks/use-reminders.ts:88 | the ids of the given list, in its order |
| Reminders.LastPresent | hooks/use-reminders.ts:104-115 | a selected id that names a stored reminder |
| Reminders.InterleavedUpdateLastWins | hooks/use-reminders.ts:104-132 | the concurrent bulk update stores the first read of the list with only the last present selected id patched, and writes nothing when no selected id is present |
| Reminders.SequentialUpdateEffect | hooks/use-reminders.ts:104-132 | updates awaited one after another patch every selected reminder and leave the others as they were |
| Reminders.Written | hooks/use-reminders.ts:106-109 | the selected ids whose concurrent write succeeds, in order; there are never more of them than writes made, one per present id |
| Reminders.WrittenSnoc | hooks/use-reminders.ts:106-109 | one more selected id adds a write exactly when it names a stored reminder, and that write succeeds unless its position fails |
| Reminders.LastWriterWins | hooks/use-reminders.ts:106-109 | a successful later write for a present id overwrites whatever the earlier concurrent writes left |
| Reminders.WrittenWithoutFailures | hooks/use-reminders.ts:106-109 | when none of the writes throws, every present id writes, and the store ends as the failure-free concurrent update leaves it |
| Reminders.InterleavedStep | hooks/use-reminders.ts:106-109 | one more concurrent call: what the store then holds, and whether the batch has thrown, follow the ids written so far |
| Reminders.FirstThrow | hooks/use-reminders.ts:106-109 | the first awaited update that throws: no update before it throws, and when it is not past the end it throws |
| Reminders.SequentialStep | hooks/use-reminders.ts:106-109 | one more awaited update patches what the earlier ones left and writes exactly when its id is stored; either it is the first to throw, or the batch goes on |
| Reminders.SequentialWritesPrefix | hooks/use-reminders.ts:106-109 | the updates of a prefix of the selection make no more writes than all of them |
| Reminders.NoThrowRunsAll | hooks/use-reminders.ts:106-109 | when none of their writes throws, the awaited updates all run |
| Reminders.Kept | hooks/use-reminders.ts:136-141 | the keys whose concurrent write succeeds, in order; never more than the keys |
| Reminders.KeptAll | hooks/use-reminders.ts:136-141 | when none of the writes throws, every key's write succeeds |
| Reminders.SameIdsDistinct | lib/storage.ts:189-192 | patching keeps reminder ids distinct |
| Reminders.BulkMarkDoneLosesUpdate | hooks/use-reminders.ts:104-115 | with two selected upcoming reminders, the concurrent bulk mark-done completes only the second; the sequential one completes both |
| Reminders.DeleteByReminderIdRemovesNothing | hooks/use-reminders.ts:72-85 | under consistency, passing a reminder id that is not an item id to `deleteItem` leaves both lists as they were |
| Reminders.DeleteFromScreenKeepsReminder | hooks/use-reminders.ts:75-78 | for one item and its reminder, deleting by the reminder's id keeps both, while deleting by its item id removes the reminder |
| Reminders.WithoutRemindersKeepsAbsent | lib/storage.ts:204 | removing the reminders of an item never brings back a reminder id |
| Reminders.StoredReminder | hooks/use-reminders.ts:75 | the lookup of a stored reminder succeeds exactly when some reminder has that id, and finds one with that id |
| Reminders.RemovesOwnReminder | lib/storage.ts:201-205 | with unique ids, deleting the reminders of a stored reminder's item removes that reminder |
| Reminders.ReminderList.constructor | hooks/use-reminders.ts:9-11 | the screen starts empty, nothing selected, loading |
| Reminders.ReminderList.LoadReminders | hooks/use-reminders.ts:17-38 | the screen shows the transformed stored reminders and stops loading |
| Reminders.ReminderList.HandleMarkDone | hooks/use-reminders.ts:44-52 | one write: stores the reminder completed (a second mark-done stores the same, see `PatchRemindersTwice`), then reloads and deselects it; when the write for a stored reminder throws, neither the store nor the screen changes |
| Reminders.ReminderList.HandleSnooze | hooks/use-reminders.ts:54-65 | one write: stores the reminder due `hours` after now and upcoming, then reloads; when the write for a stored reminder throws, neither the store nor the screen changes |
| Reminders.ReminderList.HandleDelete | hooks/use-reminders.ts:72-85 | as written: for a displayed id, calls `deleteItem` with the reminder's own id, with both of its writes; reloads and deselects when both succeed, otherwise the screen stays; nothing happens for an id not displayed |
| Reminders.ReminderList.HandleDeleteByItem | hooks/use-reminders.ts:72-85 | corrected: deletes the item the stored reminder belongs to, with `deleteItem`'s two writes. When both succeed, the screen reloads and, with unique reminder ids, the reminder is gone; otherwise the screen stays. Consistency is kept unless only the second write throws |
| Reminders.ReminderList.HandleSelectAll | hooks/use-reminders.ts:87-90 | the selection is exactly the list's ids in its order |
| Reminders.ReminderList.HandleSelectNone | hooks/use-reminders.ts:92-94 | the selection is empty |
| Reminders.ReminderList.HandleToggleSelect | hooks/use-reminders.ts:96-102 | the selection is toggled at that id |
| Reminders.ReminderList.InterleavedUpdates | hooks/use-reminders.ts:106-109 | the concurrent update calls: all read first, then each patches its read and writes it. The store ends as the last successful write left it, one write is made per present id, and the batch throws exactly when one of them failed |
| Reminders.ReminderList.SequentialUpdates | hooks/use-reminders.ts:106-109 | the same calls awaited one after another: the updates before the first throwing one are applied in order, which is one write per id found plus the one that throws; the batch throws exactly when one does |
| Reminders.ReminderList.HandleBulkMarkDone | hooks/use-reminders.ts:104-115 | as written: stores what the successful concurrent writes leave; reloads and clears the selection when no call threw, otherwise the screen stays |
| Reminders.ReminderList.HandleBulkMarkDoneInOrder | hooks/use-reminders.ts:104-115 | corrected: completes, in order, every selected reminder before the first throwing update; reloads and clears the selection when none threw, otherwise the screen stays |
| Reminders.ReminderList.HandleBulkSnooze | hooks/use-reminders.ts:117-132 | as written: one due date for all, concurrent updates; stores what the successful writes leave; reloads and clears the selection when no call threw |
| Reminders.ReminderList.HandleBulkSnoozeInOrder | hooks/use-reminders.ts:117-132 | corrected: snoozes, in order, every selected reminder before the first throwing update; reloads and clears the selection when none threw |
| Reminders.ReminderList.HandleBulkDelete | hooks/use-reminders.ts:134-146 | as written: the concurrent `deleteItem(reminder.id)` calls for the displayed selected ids first all write the items, then the reminders of those whose items write succeeded; each key ends as the last successful write left it; reloads and clears the selection only when every call succeeded |
| Reminders.ReminderList.WriteItemsEach | lib/storage.ts:137-139 | each concurrent deletion writes its read of the items minus its own id; the keys whose write succeeds are `Kept`, and the last of them decides what is stored |
| Reminders.ReminderList.WriteRemindersEach | lib/storage.ts:203-205 | each concurrent deletion writes its read of the reminders minus those referring to its id; the last successful one decides what is stored |
| Reminders.ReminderList.HandleBulkDeleteByItem | hooks/use-reminders.ts:134-146 | corrected: deletes the owner items one by one, stopping at the first throwing call. When no write threw, no selected reminder is stored (unique reminder ids), the screen reloads and consistency is kept; otherwise the screen stays |
| Reminders.ReminderList.DeleteOwnerOf | hooks/use-reminders.ts:136-141 | one corrected call: deletes the item of a stored reminder; `ok` exactly when none of its writes threw; then, with unique ids, that reminder is gone, no absent reminder id comes back and consistency is kept |
| Dashboard.TransformItems | hooks/use-dashboard-data.ts:30-36 | one view per stored item; `disposalAt` is the next reminder if set, else `interval` days after `createdAt` |
| Dashboard.ToPreviews | hooks/use-dashboard-data.ts:55-61 | one preview row per item view, overdue iff due before now |
| Dashboard.InsertByDue | hooks/use-dashboard-data.ts:62 | inserting into a list sorted by due date keeps it sorted and adds exactly that row |
| Dashboard.SortByDue | hooks/use-dashboard-data.ts:62 | the preview is sorted ascending by due date and is a permutation of its input |
| Dashboard.PreviewContents | hooks/use-dashboard-data.ts:53-62 | the preview is sorted, holds exactly the items whose name lacks "completed", and a row is overdue iff it is due before now |
| Dashboard.OverdueSplit | hooks/use-dashboard-data.ts:66-68 | the not-overdue and overdue rows add up to all rows |
| Dashboard.StatsAddUp | hooks/use-dashboard-data.ts:64-69 | upcoming plus overdue counts equal the preview size, and the preview is no larger than the item count |
| Dashboard.PatchReminderOfItemEffect | hooks/use-dashboard-data.ts:80-85 | the handlers patch the first reminder of the item and no other; with no reminder for the item nothing changes |
| Dashboard.SortByAddedDesc | hooks/use-dashboard-data.ts:71-74 | sorts the item array in place, most recently added first, as a permutation |
| Dashboard.SwapKeepsMultiset | hooks/use-dashboard-data.ts:71-74 | exchanging two elements keeps the same elements |
| Dashboard.SwapDown | hooks/use-dashboard-data.ts:71-74 | one exchange of the insertion step keeps the elements and the order outside the moving element |
| Dashboard.InsertAt | hooks/use-dashboard-data.ts:71-74 | one insertion step extends the sorted prefix by one element |
| Dashboard.DashboardData.constructor | hooks/use-dashboard-data.ts:9-10 | no items, loading |
| Dashboard.DashboardData.LoadData | hooks/use-dashboard-data.ts:17-48 | a fresh item array built from the stored items; loading ends |
| Dashboard.DashboardData.RecentItems | hooks/use-dashboard-data.ts:71-75 | sorts the dashboard's own item array in place and returns at most its first five |
| Dashboard.DashboardData.HandleMarkDone | hooks/use-dashboard-data.ts:77-92 | one write when the item has a reminder: completes its first stored reminder and reloads; a throwing write changes neither store nor screen; nothing changes when it has none |
| Dashboard.DashboardData.HandleSnooze | hooks/use-dashboard-data.ts:94-113 | one write when the item has a reminder: makes its first reminder due one day after now and upcoming, then reloads; a throwing write changes neither store nor screen |
| ParsedItems.UpdateItem | components/parsed-items-list.tsx:46-51 | keeps length and order; items with the id get the patched fields, the others are unchanged |
| ParsedItems.UpdateItemAbsent | components/parsed-items-list.tsx:46-51 | an id no item has leaves the list as it is |
| ParsedItems.UpdateItemTwice | components/parsed-items-list.tsx:46-51 | applying the same edit twice is applying it once |
| ParsedItems.ToggleEdit | components/parsed-items-list.tsx:53-57 | keeps length and leaves items with other ids unchanged |
| ParsedItems.ToggleEditFlips | components/parsed-items-list.tsx:53-57 | with unique ids, the item's editor flips (absent counts as off) and nothing else of it changes |
| ParsedItems.ToggleEditTwice | components/parsed-items-list.tsx:53-57 | toggling twice restores whether each item is being edited |
| ParsedItems.RemoveItem | components/parsed-items-list.tsx:59-62 | the result is a subsequence of the list |
| ParsedItems.RemoveItemEffect | components/parsed-items-list.tsx:59-62 | every item with the id is dropped, every other item kept; the list shrinks exactly when some item has the id |
| ParsedItems.RemoveShrinks | components/parsed-items-list.tsx:60 | the list shrinks exactly when some item has the id |
| ParsedItems.ApplyDefaultsByCategory | components/parsed-items-list.tsx:64-70 | every interval becomes its category's default, at least one; all other fields unchanged |
| ParsedItems.ApplyDefaultsIdempotent | components/parsed-items-list.tsx:64-70 | applying the defaults twice is applying them once |
| ParsedItems.ChooseCategory | components/parsed-items-list.tsx:172-176 | the chosen item gets the category and that category's default interval; the others are unchanged |
| ParsedItems.ChooseCategoryThenDefaults | components/parsed-items-list.tsx:172-176 | after a category choice, applying the defaults leaves that item as it is |
| ScanPage.FirstDigit | src/pages/ScanPage.tsx:114 | the first digit position from a given point, or the end |
| ScanPage.DigitsEnd | src/pages/ScanPage.tsx:114 | the end of the run of digits from a given point |
| ScanPage.MatchQuantity | src/pages/ScanPage.tsx:114 | no match exactly when the text has no digit; otherwise the leftmost, longest numeral with an optional fraction |
| ScanPage.MatchUnique | src/pages/ScanPage.tsx:114 | a text has only one such match |
| ScanPage.MatchValue | src/pages/ScanPage.tsx:115 | the matched numeral's value is never negative |
| ScanPage.Quantity | src/pages/ScanPage.tsx:114-115 | the value of the first numeral; 1 when the text has no digit |
| ScanPage.QuantityOfWhole | src/pages/ScanPage.tsx:113-115 | "1 pack" gives 1 |
| ScanPage.QuantityOfDecimal | src/pages/ScanPage.tsx:113-115 | "1.2 kg" gives 1.2 |
| ScanPage.QuantityOfTrailingPoint | src/pages/ScanPage.tsx:114-115 | "2.kg" gives 2: a point with no digit after it ends the numeral |
| ScanPage.QuantityWithoutDigits | src/pages/ScanPage.tsx:115 | "dozen" gives 1 |
| ScanPage.ItemsToSaveFields | src/pages/ScanPage.tsx:111-127 | one input per parsed item, in order, copying name, category and interval, with the extracted quantity and unit "pieces" |
| ScanPage.ScanPageState.constructor | src/pages/ScanPage.tsx:93-103 | nothing parsed, not submitting |
| ScanPage.ScanPageState.SetParsedItems | src/pages/ScanPage.tsx:152 | the parsed list is replaced |
| ScanPage.ScanPageState.HandleAddAllItems | src/pages/ScanPage.tsx:88-164 | an empty list saves nothing. Otherwise the batch is saved as `saveMultipleItems` does. Only when every write succeeds is `Added` reported and the list cleared; otherwise `Failed` is reported and the list kept. Consistency for unused ids is kept exactly unless `Failed` comes after the items write succeeded |
| AddItemPage.NoChangesIsDefault | src/pages/AddItemPage.tsx:37-46 | the form has no changes exactly when it is the default form up to a blank name |
| AddItemPage.AcceptableIffNoFailure | src/pages/AddItemPage.tsx:59-81 | a form is acceptable exactly when none of the five checks fails |
| AddItemPage.StepsSound | src/pages/AddItemPage.tsx:59-81 | every reported error's check fails |
| AddItemPage.StepsComplete | src/pages/AddItemPage.tsx:59-81 | every failing check is reported |
| AddItemPage.StepsOrdered | src/pages/AddItemPage.tsx:59-81 | errors come in the order of the checks, none twice |
| AddItemPage.RanksLeaveRoom | src/pages/AddItemPage.tsx:59-81 | in a report ordered by check, each error leaves room for the ones after it |
| AddItemPage.NameErrorsLead | src/pages/AddItemPage.tsx:62-66 | a report of five errors in check order would start with both name errors |
| AddItemPage.ReportMeaning | src/pages/AddItemPage.tsx:59-81 | a report of exactly the failing checks is empty iff the form is acceptable and has at most four entries |
| AddItemPage.ValidateForm | src/pages/AddItemPage.tsx:59-81 | exactly the failing checks, in order, none twice; empty iff trimmed name length is at least 2, a category is set, quantity is positive and interval at least 1; at most four |
| AddItemPage.ToInput | src/pages/AddItemPage.tsx:100-106 | the saved input is the form with the name trimmed |
| AddItemPage.AddItemForm.constructor | src/pages/AddItemPage.tsx:25-33 | the default form, not submitting |
| AddItemPage.AddItemForm.Edit | src/pages/AddItemPage.tsx:25-31 | the form takes the edited fields |
| AddItemPage.AddItemForm.ResetForm | src/pages/AddItemPage.tsx:48-57 | the default form, with no unsaved changes |
| AddItemPage.AddItemForm.HandleSubmit | src/pages/AddItemPage.tsx:83-132 | a form with errors is rejected without saving. An acceptable one is saved as `saveItem` does, with its name trimmed. When both writes succeed, the form is reset. Otherwise it is kept, and when only the reminder write threw the item stays stored. Consistency for unused ids is kept exactly unless that happens |
| ItemsPage.FilteredItems | src/pages/ItemsPage.tsx:57-59 | "all" gives every item; otherwise a subsequence of the items |
| ItemsPage.FilteredItemsOfCategory | src/pages/ItemsPage.tsx:57-59 | with a category selected, exactly the items of that category are shown |
| ItemsPage.CategoryCount | src/pages/ItemsPage.tsx:62-64 | the number of items shown for that category, never more than all items |
| ItemsPage.SumCountsCons | src/pages/ItemsPage.tsx:62-64 | one more item adds one to its category's count |
| ItemsPage.SumCountsEmpty | src/pages/ItemsPage.tsx:62-64 | no items give zero counts |
| ItemsPage.OccursOnce | src/pages/ItemsPage.tsx:145 | every category is listed once in the table |
| ItemsPage.CategoryCountsAddUp | src/pages/ItemsPage.tsx:62-64 | the six category counts add up to the number of items |
| ItemsPage.OfferedCategories | src/pages/ItemsPage.tsx:145-147 | the offered categories are at most the six |
| ItemsPage.OfferedIffPresent | src/pages/ItemsPage.tsx:145-147 | a category is offered exactly when some item has it |
| ItemsPage.NextReminder | src/pages/ItemsPage.tsx:198-200 | when the item stores a next reminder, that reminder is shown |
| ItemsPage.NextReminderAgainstDashboard | src/pages/ItemsPage.tsx:198-200 | without a stored next reminder, this page's date is later than the dashboard's by the time since the item was added |
| DisposalRules.GroupPlaces | lib/disposal-rules-service.ts:5-308 | the six BBMP rules are for Bengaluru, Karnataka, the two BMC rules for Mumbai, Maharashtra, the MCD rule for Delhi, Delhi |
| DisposalRules.RuleIdsDistinct | lib/disposal-rules-service.ts:5-308 | no two rules share an id |
| DisposalRules.ByRegion | lib/disposal-rules-service.ts:310-315 | the result is a subsequence of the table |
| DisposalRules.ByRegionMembers | lib/disposal-rules-service.ts:310-315 | a rule is returned exactly when its lowercased city or region contains the lowercased query |
| DisposalRules.ByRegionIgnoresCase | lib/disposal-rules-service.ts:311-314 | queries that differ only in letter case return the same rules |
| DisposalRules.ByRegionEmpty | lib/disposal-rules-service.ts:310-315 | the empty query returns all nine rules |
| DisposalRules.LowerPlaces | lib/disposal-rules-service.ts:311-314 | the lowercased query "Karnataka" |
| DisposalRules.KarnatakaSelectsBengaluru | lib/disposal-rules-service.ts:310-315 | "Karnataka" selects a Bengaluru rule |
| DisposalRules.KarnatakaSkipsMumbai | lib/disposal-rules-service.ts:310-315 | "Karnataka" selects no Mumbai rule |
| DisposalRules.KarnatakaSkipsDelhi | lib/disposal-rules-service.ts:310-315 | "Karnataka" selects no Delhi rule |
| DisposalRules.ByRegionKarnataka | lib/disposal-rules-service.ts:310-315 | "Karnataka" returns exactly the six Bengaluru rules |
| DisposalRules.TooLongForPlace | lib/disposal-rules-service.ts:310-315 | a query longer than both city and region never selects the rule |
| DisposalRules.ByRegionFullCityName | lib/disposal-rules-service.ts:310-315 | "Bengaluru, Karnataka", the form the settings store, returns no rule |
| DisposalRules.ByCategory | lib/disposal-rules-service.ts:317-319 | a subsequence of the table; a text that names no category gives nothing |
| DisposalRules.ByCategoryMembers | lib/disposal-rules-service.ts:317-319 | a rule is returned for a category exactly when it has that category |
| DisposalGuides.FilterRules | hooks/use-disposal-guides.ts:34-56 | the shown rules are a subsequence of the loaded ones |
| DisposalGuides.FilterRulesIsOneFilter | hooks/use-disposal-guides.ts:34-56 | the two filter stages in a row are one filter by the combined condition |
| DisposalGuides.FilterRulesMembers | hooks/use-disposal-guides.ts:37-53 | a rule is shown exactly when the query is blank or its lowercased title, description or category contains the lowercased, untrimmed query, and the selection is empty or holds its category |
| DisposalGuides.BlankQueryIgnored | hooks/use-disposal-guides.ts:38 | a whitespace-only query filters nothing by text |
| DisposalGuides.InactiveShowsAll | hooks/use-disposal-guides.ts:79-80 | without active filters every loaded rule is shown |
| DisposalGuides.SelectionByMembers | hooks/use-disposal-guides.ts:49-53 | only which categories are selected matters, not their order or repetition |
| DisposalGuides.ToggleMembers | hooks/use-disposal-guides.ts:58-64 | toggling flips whether the category is selected and leaves every other category as it was |
| DisposalGuides.ToggleTwice | hooks/use-disposal-guides.ts:58-64 | toggling twice selects the same categories; for an unselected one the selection is restored exactly |
| DisposalGuides.ToggleTwiceSameRules | hooks/use-disposal-guides.ts:58-64 | toggling a category twice shows the same rules again |
| DisposalGuides.ToggleDistinct | hooks/use-disposal-guides.ts:58-64 | toggling keeps the selection free of repeats |
| DisposalGuides.DisposalGuidesState.constructor | hooks/use-disposal-guides.ts:10-15 | no rules, loading, empty query, nothing selected |
| DisposalGuides.DisposalGuidesState.LoadDisposalRules | hooks/use-disposal-guides.ts:21-32 | the rules of the region, then loading ends |
| DisposalGuides.DisposalGuidesState.SetSearchQuery | hooks/use-disposal-guides.ts:12 | the query is replaced |
| DisposalGuides.DisposalGuidesState.HandleCategoryToggle | hooks/use-disposal-guides.ts:58-64 | the selection is toggled at the category: it is selected afterwards exactly when it was not before |
| DisposalGuides.DisposalGuidesState.ClearFilters | hooks/use-disposal-guides.ts:66-69 | empty query and selection; no filter is active and every loaded rule is shown |
| RulesService.Stamp | src/services/disposal-rules-service.ts:32-120 | each sample rule with the city and the time filled in |
| RulesService.GetRules | src/services/disposal-rules-service.ts:20-135 | without a category all three sample rules; always a subsequence of them, each with the given city or "San Francisco" |
| RulesService.GetRulesByCategory | src/services/disposal-rules-service.ts:122-125 | with a category, a rule is returned exactly when it has that category |
| RulesService.GetRulesDryIsEmpty | src/services/disposal-rules-service.ts:122-125 | "dry", which no sample rule has, gives nothing |
| RulesService.SearchRules | src/services/disposal-rules-service.ts:137-156 | a subsequence of the rules for the city |
| RulesService.SearchRulesMembers | src/services/disposal-rules-service.ts:145-149 | a rule is found exactly when its lowercased title, description and joined steps contain the lowercased query |
| RulesService.SearchEmptyQuery | src/services/disposal-rules-service.ts:145-149 | the empty query finds every rule |
| RulesService.SearchIgnoresCase | src/services/disposal-rules-service.ts:145-149 | queries that differ only in case find the same rules |
| RulesService.SearchFindsParts | src/services/disposal-rules-service.ts:146-148 | a query contained in the lowercased title, description or any step is found |
| RulesService.StepInJoined | src/services/disposal-rules-service.ts:147 | text in a lowercased step occurs in the lowercased joined steps |
| SafetyGuides.GuideIdsDistinct | lib/disposal-safety-guides.ts:14-183 | the six guides have distinct ids |
| SafetyGuides.GuideCategoriesDiffer | lib/disposal-safety-guides.ts:14-183 | the six guides have distinct categories, none of them "all" |
| SafetyGuides.WithCategory | lib/disposal-safety-guides.ts:189 | a subsequence of the guides |
| SafetyGuides.WithCategoryMembers | lib/disposal-safety-guides.ts:189 | exactly the guides with that category |
| SafetyGuides.WithCategoryOfGuide | lib/disposal-safety-guides.ts:189 | with distinct categories, a guide's category selects just that guide |
| SafetyGuides.OneCopy | lib/disposal-safety-guides.ts:189 | with distinct categories, a category selects at most one guide |
| SafetyGuides.GetSafetyGuidesByCategory | lib/disposal-safety-guides.ts:185-190 | absent, empty or "all" gives the whole table; anything else exactly the guides with that category, in order |
| SafetyGuides.ByCategoryOfGuide | lib/disposal-safety-guides.ts:185-190 | each guide's category gives exactly that guide |
| SafetyGuides.FindById | lib/disposal-safety-guides.ts:193 | none exactly when no guide has the id; otherwise a guide with that id |
| SafetyGuides.FindByIdOfGuide | lib/disposal-safety-guides.ts:193 | with distinct ids, a guide's id finds that guide |
| SafetyGuides.GetSafetyGuideById | lib/disposal-safety-guides.ts:192-194 | undefined exactly when no guide has the id; otherwise a guide with that id |
| SafetyGuides.ByIdOfGuide | lib/disposal-safety-guides.ts:192-194 | each guide's id finds that guide |
| SafetyGuides.CategoriesOf | lib/disposal-safety-guides.ts:197 | the guides' categories in order |
| SafetyGuides.GuideCategories | lib/disposal-safety-guides.ts:197 | the table's categories in order |
| SafetyGuides.GetCategories | lib/disposal-safety-guides.ts:196-199 | starts with "all" |
| SafetyGuides.GuideCategoriesDistinct | lib/disposal-safety-guides.ts:14-183 | the table's categories are distinct and do not include "all" |
| SafetyGuides.CategoriesListed | lib/disposal-safety-guides.ts:196-199 | "all" followed by every guide category in table order, with no duplicates |
| SafetyGuides.PrependDistinct | lib/disposal-safety-guides.ts:198 | putting a new element in front keeps a list free of repeats |
| GuidesPage.FilterGuides | src/pages/GuidesPage.tsx:20-31 | a blank query gives the guides unchanged; always a subsequence |
| GuidesPage.FilterGuidesMembers | src/pages/GuidesPage.tsx:23-30 | with a non-blank query, a guide is kept exactly when the lowercased query occurs in its lowercased title, description, or any do item, don't item or tip |
| GuidesPage.FilterGuidesIgnoresCase | src/pages/GuidesPage.tsx:21-24 | queries that differ only in case, and are equally blank, keep the same guides |
| GuidesPage.SearchTwiceSame | src/pages/GuidesPage.tsx:20-31 | searching the search results again changes nothing |
| GuidesPage.BothFilters | src/pages/GuidesPage.tsx:17-31 | the category filter then the search keeps exactly the guides of that category that match |
| GuidesPage.ListingWithBothFilters | src/pages/GuidesPage.tsx:17-31 | on the page, a chosen category and a non-blank query show exactly the table's guides that satisfy both |
| GuidesPage.ListedFromTable | src/pages/GuidesPage.tsx:17-31 | the page shows a subsequence of the table |
| GuidesPage.GuidesPageState.constructor | src/pages/GuidesPage.tsx:14-15 | empty query, category "all" |
| GuidesPage.GuidesPageState.SetSearchQuery | src/pages/GuidesPage.tsx:14 | the query changes, the category stays |
| GuidesPage.GuidesPageState.SetSelectedCategory | src/pages/GuidesPage.tsx:61 | the category changes, the query stays |
| GuidesPage.GuidesPageState.ClearFilters | src/pages/GuidesPage.tsx:89-101 | query "" and category "all": every guide is shown and the Clear Filters button disappears |
| CityPrompts.CityPrompt.PromptSuffix | lib/city-prompts.ts:9-65 | a city's prompt suffix is never empty |
| CityPrompts.KeysAreCityAndRegion | lib/city-prompts.ts:9-65 | every table key is its entry's city, a comma and space, and its region |
| CityPrompts.MumbaiKey | lib/city-prompts.ts:10-12 | the Mumbai entry's key is "Mumbai, Maharashtra" |
| CityPrompts.DelhiKey | lib/city-prompts.ts:9-65 | the Delhi entry's key is "Delhi, NCR" |
| CityPrompts.BengaluruKey | lib/city-prompts.ts:9-65 | the Bengaluru entry's key is "Bengaluru, Karnataka" |
| CityPrompts.ChennaiKey | lib/city-prompts.ts:9-65 | the Chennai entry's key is "Chennai, Tamil Nadu" |
| CityPrompts.HyderabadKey | lib/city-prompts.ts:9-65 | the Hyderabad entry's key is "Hyderabad, Telangana" |
| CityPrompts.KeysDistinct | lib/city-prompts.ts:9-65 | no two table entries share a key |
| CityPrompts.GetCityPrompt | lib/city-prompts.ts:67-69 | the table entry for a known key; null exactly when no key matches |
| CityPrompts.Values | lib/city-prompts.ts:72 | the entries of a table, in order |
| CityPrompts.GetAllCities | lib/city-prompts.ts:71-73 | the five table entries, in order |
| CityPrompts.LookupListedCity | lib/city-prompts.ts:67-73 | looking up a listed city by its key finds that city |
| CityPrompts.LookupNamesCity | lib/city-prompts.ts:67-69 | a found entry has the key that was looked up |
| CityPrompts.GetCityPromptSuffix | lib/city-prompts.ts:75-78 | the known entry's suffix; "" exactly for unknown keys |
| CityPrompts.UnknownCityHasNoSuffix | lib/city-prompts.ts:75-78 | "Pune, Maharashtra" is unknown and gets "" |
| CityPrompts.DefaultCityListed | lib/city-prompts.ts:67-69 | the store's default city "Bengaluru, Karnataka" has an entry |
| BottomNav.ActiveBelowLink | components/bottom-nav.tsx:47 | a non-exact item is active on every path that extends its link |
| BottomNav.ExactOnlyOnOwnPath | components/bottom-nav.tsx:44-45 | an exact item is inactive on any other path |
| BottomNav.HomeOnlyOnRoot | components/bottom-nav.tsx:8-13 | Home is active exactly on "/", so not on "/add" |
| BottomNav.AddActiveOnAddress | components/bottom-nav.tsx:14-19 | prefix matching makes Add active on "/address" |
| BottomNav.LinkLetters | components/bottom-nav.tsx:7-38 | Home comes first; the other four links are non-exact and differ in their second letter |
| BottomNav.AtMostOneActive | components/bottom-nav.tsx:7-48 | no path makes two items active at once |
| BottomNav.RootHighlightsHome | components/bottom-nav.tsx:7-48 | on "/" exactly Home is active |
| Onboarding.ActionsAt | components/onboarding.tsx:163-182 | Skip and Next exactly before the last step, Get Started exactly on it |
| Onboarding.OneCurrentDot | components/onboarding.tsx:145-158 | exactly one dot is current, the one of the current step; passed dots come before it |
| Onboarding.NextStep | components/onboarding.tsx:82-88 | before the last step, Next advances by one; on the last step it finishes |
| Onboarding.NextWalksThroughSteps | components/onboarding.tsx:27-88 | five steps: Next goes 0 to 1 to 2 to 3 to 4, then finishes |
| Onboarding.OnboardingFlow.constructor | components/onboarding.tsx:70-71 | step 0, hidden, not completed |
| Onboarding.OnboardingFlow.Appear | components/onboarding.tsx:73-80 | the overlay becomes visible |
| Onboarding.OnboardingFlow.Shown | components/onboarding.tsx:99-100 | at most one card, and while visible it is the current step's |
| Onboarding.OnboardingFlow.HandleComplete | components/onboarding.tsx:94-97 | hidden, and completion is signalled |
| Onboarding.OnboardingFlow.HandleSkip | components/onboarding.tsx:90-92 | completes from any step |
| Onboarding.OnboardingFlow.HandleNext | components/onboarding.tsx:82-88 | advances by one before the last step; on the last step completes without advancing; the step stays in 0..4 |

## Left out

- Local storage text: the JSON serialisation and the getters' fall-back on unreadable JSON are not modelled. The store holds values, so a stored list always reads back as it was written.
- `exportData`: it only reads the three getters and prints them as JSON text, which is serialisation; it changes nothing and is left out.
- `generateId`'s random text and `new Date()` readings are parameters (`Fresh`). Nothing checks that generated ids are unused; the consistency claims assume it in their own hypotheses.
- Calendar behaviour: `setDate`, `addDays` and `addHours` become plain millisecond arithmetic. A day is 24 hours, and daylight-saving changes are not modelled. ISO timestamp strings are integers.
- Reminders.ReminderList.HandleMarkDone: one clock reading `now` serves for both the reload after the update and the overdue test.
- Reminders: `ReminderData` includes no item id, so the screen cannot use one. The model keeps the same view fields.
- Reminders.TabsPartition: the tabs keep the screen's order. That the filters keep order is not stated separately.
- Dashboard.SortByDue: the model sorts by insertion. The stability of JavaScript's sort for equal due dates is not claimed.
- Dashboard.DashboardData.HandleMarkDone: the reload rebuilds the item list from stored items only. Reminder status never reaches the dashboard, as in the source.
- Dashboard.DashboardData.RecentItems: the source sorts the React state array in place during rendering. The model sorts the dashboard's own array.
- ScanPage.MatchValue: `parseFloat` is the exact decimal the numeral denotes. Binary floating-point rounding is left out.
- ScanPage.ScanPageState.HandleAddAllItems: the server upload after saving (`uploadToAPI`), the toasts and the navigation are left out. Their failures do not change the stored data.
- Storage.StorageService.SaveMultipleItemsRollingBack: consistency is promised only in one direction; when an undo write throws the contract does not say whether the store is consistent.
- Reminders.ReminderList.HandleBulkDeleteByItem: when a call throws, the contract says only that the screen stays and that writes were made; which items and reminders remain stored is not stated.
- Failures other than a throwing write, such as the page closing between two writes, are not modelled.
- AddItemPage.AddItemForm.HandleSubmit: the toasts and the navigation are left out. The quantity is an exact number, so `NaN` inputs are not modelled.
- Text.ToLower: only ASCII letters are mapped. JavaScript's `toLowerCase` also maps other scripts.
- String lengths count characters. JavaScript counts UTF-16 code units, which differ only outside the Basic Multilingual Plane.
- RulesService: the half-second delay, the `try`/`catch` that rethrows another error, and the `dos`, `donts`, pickup schedule and link fields are left out. No modelled operation reads them.
- DisposalRules: the rules' `steps`, `dosList`, `dontsList` and `externalLinks` are left out, because no modelled operation reads them. The suggested interval is kept, and each `lastUpdated` stamp is kept as the number of days before the table is built.
- DisposalGuides.DisposalGuidesState.LoadDisposalRules: the `try`/`catch` cannot fire, because the lookup is pure. It is left out.
- CityPrompts.GetCityPrompt: the source indexes a plain object. So a key that names an inherited property of JavaScript objects (such as "constructor") would also be found. The model's table has only the five keys.
- CityPrompts: each prompt suffix is its list of practice lines put into the shared template, which gives the same text as the source's literal.
- SafetyGuides: icons and severities are kept as data. The onboarding icons and colours are not modelled.
- Onboarding.OnboardingFlow.HandleComplete: the 300 ms delay before `onComplete`, the 500 ms appearance timer and the progress percentage are left out. What `onComplete` does in `src/App.tsx` is not part of this model.
- OCR, authentication, networking, the service worker, IndexedDB and the purely presentational components are not part of this model.

## Findings

| source | as written | input that shows it | evidently intended | confidence | as-written member | corrected member |
|---|---|---|---|---|---|---|
| hooks/use-reminders.ts:104-132 | the bulk handlers start every `updateReminder` at once. Each call reads the list before any call writes, so each write replaces the others' changes | two upcoming reminders "r1" and "r2", both selected, then bulk mark-done. Only "r2" ends up completed | every selected reminder is completed (or snoozed) | not executed | Reminders.BulkMarkDoneLosesUpdate | Reminders.ReminderList.HandleBulkMarkDoneInOrder |
| hooks/use-reminders.ts:72-85 | `handleDelete` and `handleBulkDelete` pass the reminder's own id to `deleteItem`, which matches item ids and `itemId`s. Under the store's consistency, nothing is removed | one item "i1" with its reminder "r1"; deleting "r1" from the screen leaves both stored | the item the reminder belongs to is deleted, taking its reminder with it | not executed | Reminders.DeleteFromScreenKeepsReminder | Reminders.ReminderList.HandleDeleteByItem |
| lib/storage.ts:62-71 | `saveItem` writes the item list before it creates the reminder. When the reminder write throws, the item stays stored without a reminder, which breaks the one-reminder-per-item relation | a consistent store where the items write succeeds and the next write, the reminder's, throws. The new item is then stored with no reminder | the item and its reminder are stored together or not at all | not executed | Storage.StorageService.SaveItem | Storage.StorageService.SaveItemRollingBack |
| lib/storage.ts:99-109 | `saveMultipleItems` writes every new item first and then creates the reminders one by one. A reminder write that throws leaves the later items without reminders | a batch of two items where the items write and the first reminder write succeed and the second throws (`Run` = 1). The second item is stored without a reminder | the batch is stored whole or not at all | not executed | Storage.StorageService.SaveMultipleItems | Storage.StorageService.SaveMultipleItemsRollingBack |
| lib/storage.ts:135-147 | `deleteItem` removes the item first and its reminders second. When the second write throws, the item's reminders stay behind and refer to no item | a consistent store holding item "i1" with its reminder, where the items write succeeds and the reminders write throws | the reminders go first, so a failure never leaves a reminder without its item | not executed | Storage.StorageService.DeleteItem | Storage.StorageService.DeleteItemRemindersFirst |
