# Invoice dashboard stores, in Dafny

This project models the client-side state of an invoicing dashboard. The Vue/Pinia
stores are written here as explicitly constructed objects, and the properties their
callers rely on are proved.

- **Invoice entity types** (`InvoiceTypes`). The six-valued `InvoiceStatus` union is a
  datatype, and `InvoiceItem` and `Invoice` are records. `InvoiceDraft` is the
  "invoice without `id` and `createdAt`" that `addInvoice` receives. Optional fields
  are `Option`s.
- **Invoice store** (`InvoiceStore.Store`). The class has the four state refs:
  `invoices`, `selectedInvoice`, `isModalOpen` and `isLoading`. Its actions are methods
  that reassign them.
  - `updateInvoiceStatus` is specified by the value-level function `WithStatus`. Its
    `find` is the loop `FindInvoiceIndex`.
- **Invoice store getters** (`InvoiceViews`). These are pure functions of the list.
  - `recentInvoices` is a stable newest-first insertion sort of a copy, cut to five.
  - `totalStats` is the left fold of the four-test reducer `Tally`. It is proved equal
    to independent per-status sums.
- **Activity store** (`ActivityStore.Store`). It holds a list that only grows at the
  front. `RecentActivities` is its first five elements.

Clock reads and the loaded dataset are method parameters:

- `addInvoice` reads the clock twice, once for `id` (`Date.now()`) and once for
  `createdAt`. `AddInvoice` takes both values.
- `loadInvoices` is split at its `await`. `BeginLoad` raises the flag, which the
  constructor does as the source does at construction. `FinishLoad` takes the awaited
  dataset, or `None` when the wait rejects. It replaces the list only on success and
  lowers the flag on both paths.

`createdAt` is an integer number of milliseconds. The source holds it as an ISO string
and parses it with `new Date(..).getTime()`. Amounts, item quantities, unit prices,
line totals and `discountRate` are `real`s; `id`, like `createdAt`, is an `int`, since
every id the store makes is a whole number of milliseconds from `Date.now()`.

## Model

| member | source | states |
|---|---|---|
| `InvoiceTypes.StatusEnumerationClosed` | src/types/invoice.ts:9 | the status enumeration has exactly six distinct members, every status is one of them, and their six string labels are distinct |
| `InvoiceTypes.StatusLabel` | src/types/invoice.ts:9 | each status is one of the union's string literals, and that literal names this status and no other |
| `InvoiceTypes.WithIdentity` | src/stores/invoiceStore.ts:60-64 | the `{ ...newInvoice, id, createdAt }` literal: the new invoice's `id` and `createdAt` are the two supplied values |
| `InvoiceTypes.DraftRoundTrip` | src/stores/invoiceStore.ts:59-64 | the invoice built by `addInvoice` carries every field of the draft it was given |
| `InvoiceTypes.IdentityRoundTrip` | src/types/invoice.ts:11-26 | an invoice is exactly its draft fields plus its own `id` and `createdAt` |
| `Slices.Take` | src/stores/invoiceStore.ts:18 | `slice(0, n)` returns a prefix of the list of length `min(n, length)` |
| `InvoiceViews.InsertByCreated` | src/stores/invoiceStore.ts:16-17 | inserting into a newest-first list keeps it newest-first and adds exactly the inserted invoice |
| `InvoiceViews.SortNewestFirst` | src/stores/invoiceStore.ts:16-17 | the sorted copy is ordered by non-increasing `createdAt` and is a permutation of the list |
| `InvoiceViews.PrefixOfSortedIsNewest` | src/stores/invoiceStore.ts:16-18 | a prefix of a newest-first list is part of it, and everything after the prefix is no newer than anything in it |
| `InvoiceViews.RecentInvoices` | src/stores/invoiceStore.ts:14-19 | `recentInvoices` has `min(5, length)` elements, newest first, all taken from the list, and every invoice left out is no newer than every invoice shown |
| `InvoiceViews.RecentInvoicesFromList` | src/stores/invoiceStore.ts:14-19 | every invoice that `recentInvoices` shows is in the list |
| `InvoiceViews.RecentInvoicesShowsAllWhenFew` | src/stores/invoiceStore.ts:14-19 | with five invoices or fewer, `recentInvoices` shows every one of them, as often as it occurs |
| `InvoiceViews.PushedInvoiceIsRecent` | src/stores/invoiceStore.ts:14-19 | an invoice pushed onto a list of fewer than five appears in `recentInvoices` |
| `InvoiceViews.RecentInvoicesDropsOldest` | src/stores/invoiceStore.ts:14-19 | with more than five invoices, one strictly older than all the others is not shown |
| `InvoiceViews.SixPushedKeepsNewestFive` | src/__tests__/invoiceStore.spec.ts:77-92 | six invoices pushed with ids 0..5, id `n` created `n` seconds before now, give five recent invoices and none has id 5 |
| `InvoiceViews.Tally` | src/stores/invoiceStore.ts:23-30 | the reducer callback: its four independent status tests add the invoice's amount to exactly one total, the one its status belongs to, and leave the other three as they were |
| `InvoiceViews.FoldStats` | src/stores/invoiceStore.ts:22-37 | the `reduce` over the list: from any start value it adds the per-status sums of the list (PAID, OVERDUE, DRAFT, and SENT/VIEWED/PENDING) to the start's four totals |
| `InvoiceViews.TotalStats` | src/stores/invoiceStore.ts:21-38 | `totalPaid`, `totalOverdue` and `totalDraft` are the sums over PAID, OVERDUE and DRAFT invoices; `totalUnpaid` is the sum over SENT, VIEWED and PENDING invoices, so OVERDUE is not unpaid |
| `InvoiceViews.BucketsPartitionTotal` | src/stores/invoiceStore.ts:24-28 | the four status sets split every invoice's amount into exactly one sum |
| `InvoiceViews.TotalStatsAddUp` | src/stores/invoiceStore.ts:21-38 | the four totals add up to the sum of all amounts |
| `InvoiceViews.TotalStatsNonNegative` | src/stores/invoiceStore.ts:21-38 | with non-negative amounts all four totals are non-negative |
| `InvoiceViews.TotalStatsPrepend` | src/stores/invoiceStore.ts:21-38 | putting an invoice at the front changes the totals by exactly that invoice's contribution |
| `InvoiceViews.TotalStatsExample` | src/__tests__/invoiceStore.spec.ts:94-106 | 100 PAID, 50 OVERDUE, 30 DRAFT and 20 SENT give totals 100, 50, 30 and 20 |
| `InvoiceStore.WithStatus` | src/stores/invoiceStore.ts:88-93 | a status update keeps the list's length and changes nothing but statuses |
| `InvoiceStore.WithStatusAtFirstMatch` | src/stores/invoiceStore.ts:88-93 | when some invoice has the id, exactly the first such invoice gets the new status and every other invoice is unchanged |
| `InvoiceStore.WithStatusNoMatch` | src/stores/invoiceStore.ts:88-93 | when no invoice has the id, the list is unchanged |
| `InvoiceStore.LastStatusWins` | src/stores/invoiceStore.ts:88-93 | two updates of the same id leave the later status, as if the earlier one had not happened |
| `InvoiceStore.WithStatusKeepsTotalAmount` | src/stores/invoiceStore.ts:88-93 | a status update never changes the sum of all amounts |
| `InvoiceStore.FindInvoiceIndex` | src/stores/invoiceStore.ts:89 | `find` by id returns the index of the first invoice with that id, or nothing when no invoice has it |
| `InvoiceStore.Store.constructor` | src/stores/invoiceStore.ts:8-11 | a new store has an empty list, no selected invoice, a closed modal and the loading flag raised by the load it starts |
| `InvoiceStore.Store.BeginLoad` | src/stores/invoiceStore.ts:41-42 | starting a load raises the loading flag and changes nothing else |
| `InvoiceStore.Store.FinishLoad` | src/stores/invoiceStore.ts:43-51 | finishing a load lowers the flag on both paths, replaces the list on success and keeps it on failure |
| `InvoiceStore.Store.SetInvoices` | src/stores/invoiceStore.ts:54-56 | the list becomes exactly the given list, with no merge, and nothing else changes |
| `InvoiceStore.Store.AddInvoice` | src/stores/invoiceStore.ts:59-68 | the returned invoice has the draft's fields, the supplied `id` and `createdAt`, and is the new head of the list in front of the old list |
| `InvoiceStore.Store.PushInvoice` | src/stores/invoiceStore.ts:71-73 | the given invoice, unchanged, is put in front of the old list, with no check on its id |
| `InvoiceStore.Store.OpenInvoiceModal` | src/stores/invoiceStore.ts:75-81 | the invoice becomes selected and the modal opens, keeping modal and selection in step |
| `InvoiceStore.Store.CloseInvoiceModal` | src/stores/invoiceStore.ts:83-86 | the selection is cleared and the modal closes, keeping modal and selection in step |
| `InvoiceStore.Store.UpdateInvoiceStatus` | src/stores/invoiceStore.ts:88-93 | the new list is `WithStatus` of the old one, and the modal and loading state do not change |
| `ActivityStore.RecentActivities` | src/stores/activityStore.ts:8 | `recentActivities` is the prefix of the list of length `min(5, length)`, with no sorting |
| `ActivityStore.PushedActivityLeadsRecent` | src/stores/activityStore.ts:8-12 | right after a push, the pushed activity is the first recent activity |
| `ActivityStore.RecentActivitiesAfterPush` | src/stores/activityStore.ts:8-12 | after a push the recent view is the pushed activity followed by the old view, cut to five |
| `ActivityStore.Store.constructor` | src/stores/activityStore.ts:6 | a new activity store holds no activities |
| `ActivityStore.Store.PushActivity` | src/stores/activityStore.ts:10-12 | the activity is put in front of the old list, which keeps its order, and the length grows by one |

## Left out

- The constructor models the start of the `loadInvoices` call made at construction: the loading flag goes up. Its completion is left to a caller of `FinishLoad`: after the one-second delay, the list is replaced by the sample dataset and the flag comes down. The delay itself is not modelled. `@/composables/dummyInvoices` is not part of this model, so the dataset is a parameter of `FinishLoad`.
- `console.log` and `console.error` calls are left out.
- Vue/Pinia reactivity is left out: `ref`, `computed` and the `defineStore` singleton. Getters are functions computed from the list on demand, so reading them cannot change any state.
- Clock reads and ISO-8601 dates are left out: `Date.now()`, `new Date().toISOString()` and the `new Date(..).getTime()` parsing in the sort comparator. Times are integer milliseconds. An unparsable `createdAt`, which makes the comparator return NaN, is not modelled.
- Floating-point arithmetic is left out. Amounts are exact reals, so rounding in the sums is not modelled.
- InvoiceViews.SortNewestFirst: the sort is stable, but tie order is not proved. Only order by `createdAt` and being a permutation are proved.
- InvoiceStore.Store.UpdateInvoiceStatus: the model holds invoices and lists as values, so it keeps no object or array identity. The source shares objects and arrays by reference, and three kinds of sharing are not captured:
  - One invoice object at two list positions, after `setInvoices([x, x])` or a `pushInvoice` of an invoice already in the list. `updateInvoiceStatus(x.id, s)` assigns the status on the one shared object, so both positions change and `totalStats` moves both amounts. The model changes the first position only.
  - The array passed to `setInvoices`. It becomes the store's own list, so later `addInvoice` and `pushInvoice` calls also grow the caller's array. The model's list is a copy.
  - Invoice objects held outside the store: a `selectedInvoice`, the object returned by `addInvoice`, or one passed to `pushInvoice`. A later status update mutates that same object. In the model they keep the status they had when they were handed over.
- The activity record type (`@/types/activity`) is not part of this model. The activity store is generic in it.
- The socket transport wrapper, the route guard and the mock event server are left out. They are network I/O, timers and authentication callbacks outside the store. The socket payload types are left out because they have no behaviour.
