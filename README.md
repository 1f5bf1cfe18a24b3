# MarkPro offline core in Dafny

This project models the offline-first data layer of MarkPro, a field-service
CRM written in TypeScript (Next.js, SWR, zustand, IndexedDB), and the admin
screens that read through it. It covers:

- **The IndexedDB layer** (`lib/offline/storage.ts`), modelled as the class
  `OfflineStorage.OfflineDb`. Its fields are the object stores it updates:
  - the TTL cache, keyed by string;
  - the jobs entity store;
  - the auto-increment pending-action queue;
  - the offline photo store.

  Every operation is a method proved against a specification function, and
  the sync manager replays the queue against the remote database.
- **The SWR wrapper** (`lib/offline/swr.ts`):
  - the fetcher that falls back to the local cache when offline;
  - the options merge;
  - the optimistic-update helper and query invalidation, over an SWR cache
    (`OfflineSwr.SwrCache`) that records every write it receives.
- **The zustand stores** (`lib/store.ts`), as four classes.
- **The network-change handler** of the application root (`app/providers.tsx`).
  On reconnection it syncs the queue and sets the sync status.
- **The admin screens for jobs, invoices, customers and the shop.** This
  covers their search and status filters, the pipeline grouping by stage,
  the invoice totals, the board columns, and the optimistic stage change
  of a job.

The modules import each other as follows:

- `Wrappers`, `Seqs`, `Text` and `Json` are the shared vocabulary:
  - option and result values;
  - filtering and summing over sequences, and subsequences;
  - ASCII lower-casing and substring search;
  - the dynamic JSON payloads the source stores as `any`.
- `OfflineStorage` builds on them.
- `OfflineSwr` uses `OfflineStorage`.
- `AppStore` is the stores.
- `Providers` joins `AppStore` and `OfflineStorage`.
- `JobsPage` uses `OfflineSwr`; the other three page modules use only the
  shared vocabulary.

Things outside the program are inputs to the model:

- The clock (`Date.now()`) is the parameter `now`.
- `crypto.randomUUID()` is the parameter `freshId`.
- Connectivity (`navigator.onLine`) is the parameter `online`.
- Each remote call's success is a sequence of booleans, `remoteOk`.
- Each queue deletion's success is `clearOk`.
- Whether the database could be opened and read is `storeOk`.
- The value SWR refetches when it revalidates is `refetched`.
- Every remote request the sync manager sends is returned as a `RemoteCall`,
  in the order it was sent.

Behaviour of the code that the model keeps as written:

- The fetcher caches an online result for 10 minutes, passing that TTL
  explicitly instead of the 5-minute default of `setCache`
  (`lib/offline/swr.ts:23`, `lib/offline/storage.ts:122`).
- When offline, the fetcher returns a cached value only when it is truthy
  (`lib/offline/swr.ts:15`). A cached `0`, `""`, `false` or `null` is reported
  as "no cached data" (`OfflineSwr.OfflineAnswer`).
- The network-change handler reacts to every report it receives, including a
  repeated report of the same state (`app/providers.tsx:18-35`).
- A queued action whose remote call succeeded but whose removal from the queue
  failed counts as failed and stays queued, so the next pass sends it again
  (`lib/offline/storage.ts:294-298`).
- A queued update or delete whose payload is `null` throws when the sync
  manager reads `action.data.id` (`lib/offline/storage.ts:276`, `289`). No
  request is sent for it, it counts as failed and it stays queued
  (`OfflineStorage.Dispatch`).
- `getUnsyncedPhotos` queries the `by-synced` index with the key `false`
  (`lib/offline/storage.ts:243`). A boolean is not a valid IndexedDB key, so
  the request always fails with a `DataError`; see "## Findings".

## Model

| member | source | states |
|---|---|---|
| `Json.WithIdThenSpread` | lib/offline/storage.ts:211 | `{ id, ...data }` has data's keys plus `id`; every field of data wins; `id` is the given id only when data has none |
| `Text.IncludesAt` | app/admin/jobs/page.tsx:82-86 | `includes` holds exactly when the needle occurs at some position of the text |
| `OfflineStorage.SetThenGet` | lib/offline/storage.ts:109-129 | after `setCache(k, v, ttl)`, a read of k before the TTL has elapsed returns v and leaves the cache unchanged |
| `OfflineStorage.ExpiredAfterTtl` | lib/offline/storage.ts:109-129 | a read of k after the TTL has elapsed returns nothing and deletes exactly that entry |
| `OfflineStorage.ReadTouchesOnlyItsKey` | lib/offline/storage.ts:109-120 | `getCached(k)` changes no entry other than k, and a miss leaves no entry for k |
| `OfflineStorage.InvalidatedExactly` | lib/offline/storage.ts:131-143 | after invalidating a prefix, exactly the keys without it remain, unchanged; with no matching key nothing changes; invalidating twice equals invalidating once |
| `OfflineStorage.Dispatch` | lib/offline/storage.ts:271-292 | an update action becomes an update by the payload's id, a create an insert of the payload, a delete a delete by the payload's id, always on the action's table; an update or delete of a `null` payload throws and sends nothing |
| `OfflineStorage.QueuedJobUpdateTargetsJob` | lib/offline/storage.ts:199-212 | the update that `updateJobOffline(id, data)` queues is sent as an update of the `jobs` row with that id, when data has no `id` of its own |
| `OfflineStorage.SentInOrder` | lib/offline/storage.ts:270-300 | a pass sends at most one request per action; when no action throws, exactly one per action, in queue order |
| `OfflineStorage.WithoutIdExactly` | lib/offline/storage.ts:168-171 | removing an action id keeps, in order, exactly the actions with another id; an absent id changes nothing |
| `OfflineStorage.WithoutIdAscending` | lib/offline/storage.ts:163-171 | removing an action keeps the queue in ascending id order |
| `OfflineStorage.SurvivorsExactly` | lib/offline/storage.ts:265-303 | after a sync pass, an action is still queued exactly when it threw, its remote call failed or its removal failed; an update or delete of a `null` payload always stays; the survivors keep their queue order |
| `OfflineStorage.SurvivorsAllOrNothing` | lib/offline/storage.ts:265-303 | a pass where everything succeeds empties the queue; a pass where every remote call fails leaves it as it was |
| `OfflineStorage.SyncStep` | lib/offline/storage.ts:270-300 | one loop iteration either removes the action at the head of the unprocessed part or keeps it, matching the survivors of one more step |
| `OfflineStorage.OfflineDb.constructor` | lib/offline/storage.ts:63-103 | a fresh database has empty stores and the auto-increment counter at 1 |
| `OfflineStorage.OfflineDb.GetCached` | lib/offline/storage.ts:109-120 | returns the entry's data when present and not expired; an expired entry is deleted and nothing is returned |
| `OfflineStorage.OfflineDb.SetCache` | lib/offline/storage.ts:122-129 | stores the entry under its key with expiry now + ttl, 5 minutes by default |
| `OfflineStorage.OfflineDb.InvalidateCache` | lib/offline/storage.ts:131-143 | deletes exactly the cache keys that start with the prefix |
| `OfflineStorage.OfflineDb.QueueAction` | lib/offline/storage.ts:149-161 | appends the action with the next auto-increment id, larger than every id already queued |
| `OfflineStorage.OfflineDb.GetPendingActions` | lib/offline/storage.ts:163-166 | returns the whole queue, in strictly ascending id order |
| `OfflineStorage.OfflineDb.ClearPendingAction` | lib/offline/storage.ts:168-171 | removes the action with that id, if any, and keeps the queue's order |
| `OfflineStorage.OfflineDb.CacheJob` | lib/offline/storage.ts:177-185 | stores the job marked synced, with its update time |
| `OfflineStorage.OfflineDb.GetCachedJob` | lib/offline/storage.ts:187-191 | returns a job's data exactly when it is stored |
| `OfflineStorage.OfflineDb.GetAllCachedJobs` | lib/offline/storage.ts:193-197 | returns one payload per stored job: the i-th payload is the data of the i-th of a list of distinct ids that is exactly the stored job ids |
| `OfflineStorage.OfflineDb.UpdateJobOffline` | lib/offline/storage.ts:199-212 | stores the job as unsynced and queues one update on `jobs` whose payload is `{ id, ...data }` |
| `OfflineStorage.OfflineDb.SavePhotoOffline` | lib/offline/storage.ts:218-238 | stores an unsynced photo under the fresh id and returns it; an id already taken is a constraint error that changes nothing |
| `OfflineStorage.OfflineDb.PhotosWhere` | lib/offline/storage.ts:240-259 | an index scan returns each stored photo passing the test exactly once |
| `OfflineStorage.OfflineDb.GetUnsyncedPhotos` | lib/offline/storage.ts:240-244 | `index('by-synced').getAll(false)` always fails with a `DataError`, since `false` is not a valid key |
| `OfflineStorage.OfflineDb.GetUnsyncedPhotosScan` | lib/offline/storage.ts:240-244 | the intended result: exactly the stored photos not yet synced, without repeats |
| `OfflineStorage.UnsyncedPhotoNeverListed` | lib/offline/storage.ts:218-244 | a photo just saved offline is unsynced, yet `getUnsyncedPhotos` fails instead of listing it, while the intended scan lists it |
| `OfflineStorage.OfflineDb.GetJobPhotos` | lib/offline/storage.ts:255-259 | returns exactly the stored photos of that job, without repeats |
| `OfflineStorage.OfflineDb.MarkPhotoSynced` | lib/offline/storage.ts:246-253 | flips only that photo's synced flag; an unknown id changes nothing |
| `OfflineStorage.OfflineDb.ReplayStep` | lib/offline/storage.ts:271-299 | one iteration sends the action's request if it can be built, removes the action and counts a success exactly when the call and the removal succeed, and counts a failure otherwise |
| `OfflineStorage.OfflineDb.Replay` | lib/offline/storage.ts:270-300 | sends the requests `Sent(actions)` in queue order, leaves exactly the survivors queued, and counts each action once as success or failure |
| `OfflineStorage.OfflineDb.SyncPendingChanges` | lib/offline/storage.ts:265-303 | if the queue cannot be read it rejects and changes nothing; otherwise the requests of every action that does not throw are sent in queue order, failed = what stays queued, success + failed = the queue length |
| `OfflineSwr.OfflineAnswer` | lib/offline/swr.ts:13-17 | offline, a truthy cached value is returned; anything else is the "Offline and no cached data available" error |
| `OfflineSwr.Fetch` | lib/offline/swr.ts:6-27 | offline: answers from the cache without querying; online: returns the query's result as is and caches a success for 10 minutes |
| `OfflineSwr.OfflineFallback` | lib/offline/swr.ts:13-17 | offline, a live truthy entry is returned and a missing or expired key is an error |
| `OfflineSwr.FetchOnlineThenOffline` | lib/offline/swr.ts:13-25 | a value fetched online is served offline until its 10-minute TTL ends, then the read fails and the entry is gone |
| `OfflineSwr.RevalidateAllEffect` | lib/offline/swr.ts:74-76 | invalidation touches only the given keys, and each ends with its last refetched value |
| `OfflineSwr.QueryOptions` | lib/offline/swr.ts:30-44 | focus and reconnect revalidation default to on and the caller may override them; `keepPreviousData` is always on |
| `OfflineSwr.SwrCache.Mutate` | lib/offline/swr.ts:53-59 | `mutate(key, value, false)` writes the value, or removes it for `undefined`, without revalidating |
| `OfflineSwr.SwrCache.Revalidate` | lib/offline/swr.ts:65 | `mutate(key)` replaces the value with what a refetch returns |
| `OfflineSwr.SwrCache.OptimisticUpdate` | lib/offline/swr.ts:47-71 | writes `updateFn(current)` first, then always revalidates, so the value ends as the refetched one; a server failure is rethrown |
| `OfflineSwr.SwrCache.InvalidateQueries` | lib/offline/swr.ts:74-76 | revalidates every listed key |
| `AppStore.AuthStore.constructor` | lib/store.ts:18-19 | no role and not authenticated |
| `AppStore.AuthStore.Login` | lib/store.ts:20 | sets the role and marks the user authenticated |
| `AppStore.AuthStore.Logout` | lib/store.ts:21 | clears the role and authentication |
| `AppStore.UIStore.constructor` | lib/store.ts:42-47 | sidebar open, sync idle, online as the navigator reports or true without a navigator |
| `AppStore.UIStore.ToggleSidebar` | lib/store.ts:43 | negates the sidebar flag and nothing else |
| `AppStore.UIStore.SetSidebarOpen` | lib/store.ts:44 | sets the sidebar flag |
| `AppStore.UIStore.SetOnline` | lib/store.ts:46 | sets the online flag |
| `AppStore.UIStore.SetSyncStatus` | lib/store.ts:48 | sets the sync status |
| `AppStore.ToggleSidebarTwice` | lib/store.ts:43 | toggling twice restores the sidebar flag |
| `AppStore.FieldStore.constructor` | lib/store.ts:60-62 | no current job and no expanded checklist |
| `AppStore.FieldStore.SetCurrentJob` | lib/store.ts:61 | sets the current job |
| `AppStore.FieldStore.SetExpandedChecklist` | lib/store.ts:63 | sets the expanded checklist |
| `AppStore.FilterStore.constructor` | lib/store.ts:80-83 | all filters start cleared |
| `AppStore.FilterStore.SetJobStageFilter` | lib/store.ts:84 | sets the stage filter |
| `AppStore.FilterStore.SetCustomerTagFilter` | lib/store.ts:85 | sets the tag filter |
| `AppStore.FilterStore.SetSearchQuery` | lib/store.ts:86 | sets the search text |
| `AppStore.FilterStore.SetDateRange` | lib/store.ts:87 | sets the date range |
| `AppStore.FilterStore.ClearFilters` | lib/store.ts:88-93 | returns every filter to its initial value |
| `Providers.StatusAfterSync` | app/providers.tsx:26-33 | the status is idle exactly when the sync completed with no failures, an error otherwise, and never left at syncing |
| `Providers.BeginNetworkChange` | app/providers.tsx:18-24 | records the connectivity; going online starts a sync and shows syncing, going offline leaves the status alone |
| `Providers.FinishSync` | app/providers.tsx:26-33 | sets the status from the sync's outcome |
| `Providers.OnNetworkChange` | app/providers.tsx:17-38 | the banner shows exactly when offline; online, the queue is replayed in order and the status is idle exactly when the queue ended empty; a rejected sync sets error and keeps the queue |
| `JobsPage.FilteredJobsSpec` | app/admin/jobs/page.tsx:77-88 | no jobs gives none; an empty query gives all; otherwise exactly the jobs whose name, customer name, company or city contains the lower-cased query, in order |
| `JobsPage.JobsByStage` | app/admin/jobs/page.tsx:91-97 | the loop builds the grouping of the filtered jobs by stage |
| `JobsPage.GroupedSpec` | app/admin/jobs/page.tsx:91-97 | every loaded stage has a group holding, in order, exactly its filtered jobs; groups are disjoint; a job of an unloaded stage is in none |
| `JobsPage.FindStage` | app/admin/jobs/page.tsx:107 | `find` gives the first stage with that id, and nothing exactly when no stage has it |
| `JobsPage.MoveJob` | app/admin/jobs/page.tsx:104-111 | the optimistic list has the same length; only the moved job changes, and only its stage id and its stage, which becomes the first loaded stage with the new id |
| `JobsPage.HandleStageChange` | app/admin/jobs/page.tsx:100-124 | writes the optimistic list without revalidating; a failed update then revalidates, a successful one keeps the optimistic list |
| `InvoicesPage.FilteredInvoicesSpec` | app/admin/invoices/page.tsx:55-62 | exactly the invoices matching both the search and the status, in order; no filters gives all; a status filter shows only that status |
| `InvoicesPage.TotalsSpec` | app/admin/invoices/page.tsx:65-69 | outstanding = overdue + owed on sent and viewed; with sane payments 0 <= overdue <= outstanding and paid >= 0 |
| `Wrappers.Toggle` | app/admin/invoices/page.tsx:134 | clicking the active filter button clears the selection, any other button selects its value; the same rule drives the tag buttons of app/admin/customers/page.tsx:117 |
| `InvoicesPage.StatusButtons` | app/admin/invoices/page.tsx:131 | the buttons offer draft, sent, viewed and paid, and not overdue or cancelled |
| `InvoicesPage.PaidNote` | app/admin/invoices/page.tsx:205-209 | the "paid" line appears exactly for a partly paid invoice, shows the amount received, and then something less than the total is still due |
| `InvoicesPage.DisplayNumber` | app/admin/invoices/page.tsx:170 | a non-empty invoice number is shown as is, otherwise `INV-` and the id's first 8 characters |
| `CustomersPage.FilteredCustomersSpec` | app/admin/customers/page.tsx:61-76 | exactly the customers matching the search and carrying the tag, in order; no filters gives all |
| `CustomersPage.VisibleTags` | app/admin/customers/page.tsx:186 | a card shows the first two tags, or all of them when it has fewer |
| `CustomersPage.OverflowCount` | app/admin/customers/page.tsx:198-200 | the "+n" chip appears exactly when tags are hidden, and shown + n = all tags |
| `ShopPage.FilteredSpec` | app/admin/shop/page.tsx:82-95 | tasks match by title or equipment name, equipment by name; each list keeps exactly its matches in order; an empty query keeps all |
| `ShopPage.ColumnsSpec` | app/admin/shop/page.tsx:98-100 | each column holds exactly the tasks of its status; columns are disjoint; cancelled tasks are in none; the columns count every task not cancelled; each column keeps the filtered order |
| `ShopPage.CompletedShown` | app/admin/shop/page.tsx:196 | the completed column shows its first five tasks, or all of them when it has fewer, all completed |
| `ShopPage.BadgeLabel` | app/admin/shop/page.tsx:226 | equipment in the shop reads "In Shop", otherwise its raw status |
| `ShopPage.BadgeStyleOf` | app/admin/shop/page.tsx:222-225 | the badge looks completed exactly for active equipment and pending exactly for equipment in the shop |

## Left out

- Opening the IndexedDB database, its schema upgrade and its indexes are not modelled. The model starts from empty stores, and a failure to open or read the database appears only as `storeOk` in the sync manager.
- The `customers` object store is not modelled: no function of the offline layer reads or writes it.
- `OfflineStorage.OfflineDb.GetAllCachedJobs` does not state the key order in which `getAll` returns records.
- `OfflineStorage.OfflineDb.GetUnsyncedPhotosScan` and `OfflineStorage.OfflineDb.GetJobPhotos` do not state the key order in which `getAll` returns records.
- `OfflineStorage.OfflineDb.UpdateJobOffline` uses one `now` for both records. The source reads the clock twice.
- JavaScript `null` and `undefined` are one absent value. A cached `null` payload is therefore a value, and the fetcher's truthiness test rejects it.
- Numbers in payloads are integers and money amounts are whole cents. Floating point is not modelled.
- Lower-casing is ASCII only. Unicode case mapping is not modelled.
- `isOnline` and `onNetworkChange` subscribe to browser events. The model takes connectivity as a parameter and the handler as one call per event.
- SWR's internals (deduplication, focus tracking, error retry) are not modelled, and neither is the `SWRConfiguration` type beyond its two revalidation flags.
- `OfflineSwr.QueryOptions` treats a configuration field given explicitly as `undefined` like a missing one, so the default applies; in the source's object spread an explicit `undefined` overrides the default. No caller in the modelled files passes a configuration.
- Revalidation is an oracle value `refetched`. A failing refetch is not modelled.
- `OfflineSwr.SwrCache.InvalidateQueries` performs the revalidations one after another. The source runs them concurrently with `Promise.all`.
- Interleavings of concurrent async calls are not modelled. Each operation runs to completion before the next.
- Persistence of the auth store to `sessionStorage` is not modelled.
- Toasts, console logging, routing links and date formatting have no effect on the model.
- Photo upload to remote storage is not part of this model, since no such path exists in the modelled files. Photos are only stored and flagged.
- The service-worker registration in `app/providers.tsx` is not modelled, and of the rendered tree only the offline banner is.
- The job-count label of a customer card (`app/admin/customers/page.tsx:206`) is display only and is not modelled.

## Findings

| source | as written | input that shows it | evidently intended | confidence | as-written member | corrected member |
|---|---|---|---|---|---|---|
| lib/offline/storage.ts:240-244 | `getUnsyncedPhotos` calls `getAll(false)` on the `by-synced` index; a boolean is not a valid IndexedDB key, so the request rejects with `DataError` | any database, e.g. one photo saved offline with `savePhotoOffline` and therefore unsynced | return every stored photo whose `synced` flag is false | high, not executed | `OfflineStorage.UnsyncedPhotoNeverListed` | `OfflineStorage.OfflineDb.GetUnsyncedPhotosScan` |
