# Offline task manager: sync queue, sync scheduler and task store

This project models the core of a small offline-first task manager in Dafny. Task lists and
tasks live in a remote database. The client keeps three pieces of state:

- **The sync queue.** An ordered list of deferred mutations ("sync actions"), persisted in one
  browser storage slot. Each action has a retry counter. An action with fewer than
  `MAX_RETRIES` (3) failed attempts is *pending*; any other action is *failed* (dead-lettered).
  The queue supports append, remove-by-id, bump-the-first-match's-retry-count, clear, and the
  pending and failed views.
- **The sync scheduler.** Tracks whether the browser is online and whether a pass is in flight.
  It holds a rendered copy of the queue. A *flush pass* snapshots the pending actions and
  attempts each in turn: a delivered action is removed from the store, a failed delivery raises
  the action's retry count. A pass runs only when online, not already syncing, and with
  something pending.
- **The task store.** The fetched lists, the tasks of the selected list, the selected list id
  and a loading flag. Every action except `setSelectedListId` awaits a database call and then
  changes local state. The two fetches raise the loading flag before their query and clear
  it after. `setSelectedListId` is synchronous: it sets the selection and starts a fetch for a
  truthy id. Inserts use the returned row. Updates, toggles and deletes apply locally whatever
  the database answered.

The modules follow the program's structure:

| file | module | models |
|---|---|---|
| `wrappers.dfy` | `Wrappers` | an `Option` type |
| `seqs.dfy` | `Seqs` | generic `Filter`/`Map` (the array methods the code uses), subsequence, and their lemmas |
| `sync_queue.dfy` | `SyncQueue` | the action record, the retry budget and the `QueueStore` class over the storage slot |
| `sync_scheduler.dfy` | `SyncScheduler` | the flush pass as a function, its record-by-record characterisation, and the `Scheduler` class |
| `task_store.dfy` | `TaskStore` | the list and task records, the local list transformations, and the `Store` class |

The flush pass is specified in two ways. `Walk` replays the code: attempt each snapshot record
against the current queue, removing or bumping by id. `Settled` states the intended outcome
record by record: a dead letter stays, a delivered pending record goes, a failed pending record
stays with one more retry. `FlushPassSettles` proves the two agree whenever the queue's ids are
distinct. `SimulateSync`'s loop is proved against `Walk`.

Delivery is a parameter `dispatch: SyncAction -> bool`, where true means delivered. In the
source the simulated delivery (a 500 ms timer) always succeeds, so the catch branch runs only if
delivery throws. `AllDeliveredLeavesDeadLetters` and `SecondPassIdle` describe that behaviour.

## Model

| member | source | states |
|---|---|---|
| SyncQueue.IsPending | src/lib/syncQueue.ts:73 | the pending test, fewer than MAX_RETRIES attempts; `PendingFailedPartition` proves it and `IsFailed` split every queue |
| SyncQueue.IsFailed | src/lib/syncQueue.ts:68 | the dead-letter test, at least MAX_RETRIES attempts; the complement of `IsPending` |
| SyncQueue.NewAction | src/lib/syncQueue.ts:32-38 | a freshly built record has no failed attempts, so it is pending |
| SyncQueue.Pending | src/lib/syncQueue.ts:71-74 | exactly the records with fewer than MAX_RETRIES attempts |
| SyncQueue.Failed | src/lib/syncQueue.ts:66-69 | exactly the records with at least MAX_RETRIES attempts |
| SyncQueue.Without | src/lib/syncQueue.ts:47-51 | the removal keeps exactly the records with another id; an absent id leaves the queue unchanged |
| SyncQueue.WithoutKeepsOrder | src/lib/syncQueue.ts:49 | the kept records keep their order and multiplicity; kept and dropped records make up the queue as a multiset and by count |
| SyncQueue.FirstWith | src/lib/syncQueue.ts:55 | a located index is in range and carries the id |
| SyncQueue.FirstWithFinds | src/lib/syncQueue.ts:55 | the located index is the first record with the id, and nothing is located exactly when no record has it |
| SyncQueue.RetriedFirst | src/lib/syncQueue.ts:55-57 | the queue after bumping the first match, length unchanged; `RetriedFirstBumpsFirst` states the exact result |
| SyncQueue.QueueStore.GetQueue | src/lib/syncQueue.ts:15-22 | returns the slot's content |
| SyncQueue.QueueStore.AddAction | src/lib/syncQueue.ts:32-45 | the returned record carries the input fields, the given id and timestamp and zero retries, and is appended at the end |
| SyncQueue.QueueStore.RemoveAction | src/lib/syncQueue.ts:47-51 | the slot becomes the queue without the id |
| SyncQueue.QueueStore.IncrementRetry | src/lib/syncQueue.ts:53-60 | the slot becomes the queue with the first match bumped, unchanged when no record matches |
| SyncQueue.QueueStore.ClearQueue | src/lib/syncQueue.ts:62-64 | the slot is empty, and so are both views |
| SyncQueue.QueueStore.GetFailedActions | src/lib/syncQueue.ts:66-69 | returns the failed view, in queue order |
| SyncQueue.QueueStore.GetPendingActions | src/lib/syncQueue.ts:71-74 | returns the pending view, in queue order |
| SyncQueue.PendingFailedPartition | src/lib/syncQueue.ts:66-74 | pending and failed split the queue as a multiset; each record is in exactly one; both keep queue order |
| SyncQueue.RemoveIdempotent | src/lib/syncQueue.ts:47-51 | removing an id twice is the same as removing it once |
| SyncQueue.RetriedFirstBumpsFirst | src/lib/syncQueue.ts:53-60 | one failed attempt raises only the first match's retries by one; no match leaves the queue unchanged |
| SyncQueue.RetriedFirstKeepsIds | src/lib/syncQueue.ts:53-60 | bumping changes no id's first position |
| SyncQueue.RetriedOnce | src/lib/syncQueue.ts:53-60 | the bumped record stays the first with its id |
| SyncQueue.RetriedTimesRaisesBy | src/lib/syncQueue.ts:53-60 | n failed attempts raise the first match's retries by exactly n and change nothing else |
| SyncQueue.ThirdFailureDeadLetters | src/lib/syncQueue.ts:53-60 | a new record under an unused id is still pending after two failures; after three it has 3 retries and has moved from pending to failed |
| SyncQueue.AddedAllAppends | src/lib/syncQueue.ts:40-42 | a run of appends adds the new records at the end, in call order |
| SyncQueue.PendingInInsertionOrder | src/lib/syncQueue.ts:32-45 | after a run of appends, the new records end the pending view in call order |
| SyncScheduler.Attempt | src/hooks/useSyncQueue.ts:46-52 | one attempt: removes the id when delivered, bumps the first match otherwise; its effect on a queue is stated by `DeliveredInContext` and `RetriedInContext` |
| SyncScheduler.Walk | src/hooks/useSyncQueue.ts:38-54 | the attempts over the snapshot, first to last; `WalkSettles` relates it to the record-by-record outcome |
| SyncScheduler.FlushPass | src/hooks/useSyncQueue.ts:30-54 | a walk over the records pending at the start; `FlushPassSettles` states its result for distinct ids |
| SyncScheduler.WalkSettles | src/hooks/useSyncQueue.ts:38-54 | walking the pending records of the unprocessed suffix settles each record in turn, given distinct ids |
| SyncScheduler.FlushPassSettles | src/hooks/useSyncQueue.ts:30-54 | with distinct ids, the pass as written equals the record-by-record outcome |
| SyncScheduler.AllDeliveredLeavesDeadLetters | src/hooks/useSyncQueue.ts:46-48 | when every delivery succeeds, the record-by-record outcome (the pass, given distinct ids) is exactly the dead letters |
| SyncScheduler.AllFailedRaisesRetries | src/hooks/useSyncQueue.ts:50-53 | when every delivery fails, in the record-by-record outcome (the pass, given distinct ids) every pending record gains one retry and nothing is removed |
| SyncScheduler.DeadLettersSurvive | src/hooks/useSyncQueue.ts:30-54 | the dead letters survive in order in the record-by-record outcome (the pass, given distinct ids) |
| SyncScheduler.SettledKeepsIds | src/hooks/useSyncQueue.ts:38-54 | the record-by-record outcome introduces no id and keeps ids distinct |
| SyncScheduler.DeadLetterStays | src/hooks/useSyncQueue.ts:30 | a record already at the retry budget stays as it is in the record-by-record outcome (the pass, given distinct ids) |
| SyncScheduler.DeliveredIsGone | src/hooks/useSyncQueue.ts:48 | with distinct ids, after a delivered attempt no record carries that id |
| SyncScheduler.FailedIsRetried | src/hooks/useSyncQueue.ts:52 | with distinct ids, after a failed attempt the record is present with one more retry and its old version is gone |
| SyncScheduler.SharedIdRemovesDeadLetter | src/lib/syncQueue.ts:47-51 | when ids are shared, delivering a pending record also removes a dead letter with the same id |
| SyncScheduler.SecondPassIdle | src/hooks/useSyncQueue.ts:30-31 | with always-successful delivery, a pass leaves only dead letters, so the next pass finds nothing pending |
| SyncScheduler.NothingPendingAmongFailed | src/lib/syncQueue.ts:66-74 | the failed view has no pending record |
| SyncScheduler.Scheduler.constructor | src/hooks/useSyncQueue.ts:5-7 | first render: empty copy, not syncing, connectivity as reported |
| SyncScheduler.Scheduler.Load | src/hooks/useSyncQueue.ts:22-25 | the copy is loaded from the store |
| SyncScheduler.Scheduler.HandleOnline | src/hooks/useSyncQueue.ts:10 | the online flag is set |
| SyncScheduler.Scheduler.HandleOffline | src/hooks/useSyncQueue.ts:11 | the online flag is cleared |
| SyncScheduler.Scheduler.SimulateSync | src/hooks/useSyncQueue.ts:27-65 | when offline, already syncing or nothing pending, changes nothing; otherwise the store holds the flush pass of the old queue, the copy is refreshed and the in-flight flag is released |
| SyncScheduler.Scheduler.SyncEffect | src/hooks/useSyncQueue.ts:67-77 | when offline or the copy is empty, changes nothing; when a pass is in flight or nothing is pending, the pass it starts returns at once and nothing changes; otherwise the store holds the flush pass of the old queue |
| SyncScheduler.Scheduler.AddToQueue | src/hooks/useSyncQueue.ts:79-87 | the new record is appended, returned, pending, and the copy matches the store |
| TaskStore.OtherLists | src/store/useStore.ts:74 | the lists kept by the delete filter; stated by `OtherListsExact` |
| TaskStore.OtherTasks | src/store/useStore.ts:126 | the tasks kept by the delete filter; stated by `OtherTasksExact` |
| TaskStore.Patched | src/store/useStore.ts:106 | a task with a patch spread over it; stated by `PatchedFields` |
| TaskStore.UpdatedTasks | src/store/useStore.ts:104-108 | the tasks after a local update; stated by `UpdatedTasksPointwise`, `UpdatedTasksNoop` and `UpdatedTasksIdempotent` |
| TaskStore.ToggledTasks | src/store/useStore.ts:117-121 | the tasks after a local toggle; stated by `ToggleIsUpdate` and `ToggleLastWins` |
| TaskStore.FirstListId | src/store/useStore.ts:78 | the selection after the selected list is deleted; stated by `NextSelectionRemains` |
| TaskStore.OtherListsExact | src/store/useStore.ts:74 | deleting a list keeps exactly the lists with another id, in order; changes nothing exactly when no list has the id; is idempotent |
| TaskStore.OtherTasksExact | src/store/useStore.ts:126 | the same for deleting a task |
| TaskStore.PatchedFields | src/store/useStore.ts:106 | an update never changes id, list id or creation time; it takes every field it carries and keeps every other; it is idempotent |
| TaskStore.UpdatedTasksPointwise | src/store/useStore.ts:104-108 | an update keeps length and order, patches the matching tasks and leaves the others alone |
| TaskStore.UpdatedTasksNoop | src/store/useStore.ts:104-108 | an empty patch, or an id no task has, changes nothing |
| TaskStore.UpdatedTasksIdempotent | src/store/useStore.ts:104-108 | applying the same update twice equals applying it once |
| TaskStore.ToggleIsUpdate | src/store/useStore.ts:117-121 | a toggle is the update that carries only the completion flag |
| TaskStore.ToggleLastWins | src/store/useStore.ts:117-121 | of two toggles the later wins; toggling back to the original flag restores the tasks |
| TaskStore.NextSelectionRemains | src/store/useStore.ts:77-79 | after deleting the selected list, the new selection is a remaining list and never the deleted one; it is empty exactly when no list remains |
| TaskStore.Store.constructor | src/store/useStore.ts:21-25 | nothing fetched, nothing selected, not loading |
| TaskStore.Store.FetchTasks | src/store/useStore.ts:45-58 | on success the tasks are the returned rows, otherwise unchanged; loading ends cleared |
| TaskStore.Store.FetchTaskLists | src/store/useStore.ts:27-43 | on success the lists are the returned rows; if some came back and the selection is not truthy, the first is selected and its tasks are loaded; otherwise selection and tasks are unchanged |
| TaskStore.Store.AddTaskList | src/store/useStore.ts:60-70 | the inserted row is appended on success, nothing changes on failure |
| TaskStore.Store.DeleteTaskList | src/store/useStore.ts:72-84 | the list is removed locally; if it was selected, the first remaining list is selected and the tasks are cleared, then loaded for a truthy selection; otherwise the selection and tasks are unchanged |
| TaskStore.Store.AddTask | src/store/useStore.ts:86-96 | the inserted row is appended on success, nothing changes on failure |
| TaskStore.Store.UpdateTask | src/store/useStore.ts:98-109 | the tasks become the locally patched tasks |
| TaskStore.Store.ToggleTask | src/store/useStore.ts:111-122 | the matching tasks get the given completion flag |
| TaskStore.Store.DeleteTask | src/store/useStore.ts:124-127 | the tasks with the id are removed locally |
| TaskStore.Store.SetSelectedListId | src/store/useStore.ts:129-134 | the selection is set, and for a truthy id the tasks are loaded |

## Left out

- Browser storage and JSON: the storage slot is the field `QueueStore.stored`. Three storage behaviours are not modelled: `getQueue` returning `[]` when reading or parsing fails, `saveQueue` silently dropping a write that fails, and JSON dropping non-serialisable payload values.
- Payloads (`data: Record<string, unknown>`) are reduced to a map from strings to scalar values.
- Id and timestamp generation (`Date.now`, `Math.random`) are left out. `AddAction` and `AddToQueue` take the id and timestamp as parameters.
- Ids are not guaranteed to be distinct, so the pass theorems require `UniqueIds`. The lemmas about `Settled` describe the pass only through `FlushPassSettles`, which needs distinct ids. `SharedIdRemovesDeadLetter` shows what happens when ids are shared.
- React effects, the event listeners and the 5-second interval are explicit method calls. Each interval tick is another `SimulateSync` call. Listener removal and interval cleanup have no state effect and are left out.
- Concurrency is left out. A pass runs to completion within one call, so the model does not capture these:
  - overlapping passes;
  - stale closure values of `isOnline` and `isSyncing`;
  - actions added while a pass awaits its timer.
- The 500 ms delay and the delivery itself are the `dispatch` parameter. Console logging is left out.
- The database client is not part of this model. Each awaited query's answer is a parameter. An error or a null `data` is `Failure`. An empty row list is truthy in JavaScript, so it is `Success([])` and replaces the lists or tasks with `[]`. The remote writes of `deleteTaskList`, `updateTask`, `toggleTask` and `deleteTask` are ignored by the source, so the model does not include them. That includes the `updated_at` timestamp sent to the server.
- The `fetchTasks` calls in `fetchTaskLists`, `deleteTaskList` and `setSelectedListId` are not awaited by the source. The model runs each to completion within its caller. It does not capture their interleaving with other actions, or the loading flag being raised during the call.
- TaskStore.Store.UpdateTask: a patch field given explicitly as `undefined` would, with object spread, overwrite the field. The model treats it as absent.
- The UI components and the rest of the repository are not part of this model.
