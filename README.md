# CarWash POS: local-first store and sync, in Dafny

This project models the offline core of a car-wash point-of-sale web app.

- **The on-device database.** `carwash-pos` holds three IndexedDB object stores, each keyed by the record's `id`: customers, sales and a sync queue.
  - Creating a customer or a sale uses insert-only `add`. Editing a customer uses the upsert `put`.
  - Each record write is followed by a queue entry when the record is not marked synced. The two writes are separate steps.
- **The `useSync` hook.** It keeps an online flag, a pending count and a last-sync time.
  - Its `syncPendingData` currently returns before doing anything.
  - The drain it will run once the API exists is modelled separately, as the commented code reads: dispatch by (type, action), per-item failure isolation, then an unconditional clear.
- **The screens' rules.** These cover:
  - the sale form's cart (add, change quantity, remove, total) and the sale it records;
  - the customer form's schema and field mapping;
  - the customer page's search and the records it saves;
  - the dashboard's figures for today (revenue, count, top five services);
  - the sales history (newest first, revenue, labels).

Modules follow the source files:

| module | source |
|---|---|
| `Types` | records of `src/types/index.ts` and the string tests the app uses |
| `Seqs` | the array `find`, `filter`, the stable comparator `sort` and `slice` |
| `KeyOrder` | the order in which `getAll` lists a store |
| `Db` | `src/lib/db.ts`, as class `CarWashDb` |
| `Sync` | `src/hooks/useSync.ts`, as class `SyncHook`, plus the remote API as class `RemoteGateway` |
| `SaleForm` | `src/components/SaleForm.tsx`, as class `SaleFormState` |
| `CustomerForm` | `src/components/CustomerForm.tsx` |
| `Customers` | `src/pages/Customers.tsx`, as class `CustomersPage` |
| `Dashboard` | `src/pages/Dashboard.tsx` |
| `SalesPage` | `src/pages/Sales.tsx` |

Modelling conventions:

- **Money** is whole cents (`int`).
- **Optional properties** (`email?`, `synced?`, `customerName?`) are `Option`s. A record counts as unsynced when `synced` is not `Some(true)`; this is the `!record.synced` test.
- **Outside inputs are parameters:**
  - the instant of an operation is a `Clock`: `Date.now()` as a `nat` and `toISOString()` as a string;
  - the random id suffix, today's date string and the service catalogue;
  - `toLowerCase`, the schema library's email check and date parsing.
- **Remote calls** go to `RemoteGateway.Call`, which succeeds or fails nondeterministically and logs each call.
- **Store listing order.** `getAll` returns a store's values in ascending key order, comparing character by character. `KeyOrder` proves this order total and builds the listing from the keyed map. Queue ids start with `type_action_`, so the queue is not listed in arrival order; `Db.QueueListedByIdNotArrival` shows a case.

## Model

| member | source | states |
|---|---|---|
| Seqs.Find | src/components/SaleForm.tsx:60 | `find` returns the first element passing the test, and returns nothing iff no element passes |
| Seqs.Filter | src/lib/db.ts:94 | `filter` keeps only elements satisfying the test and never lengthens the list |
| Seqs.FilterMembers | src/lib/db.ts:94 | an element is in the filtered list iff it is in the list and passes the test |
| Seqs.FilterIsSubsequence | src/pages/Customers.tsx:57-61 | the filtered list is an order-preserving subsequence of the input |
| Seqs.FilterKeepsAll | src/pages/Customers.tsx:57-61 | when every element passes, `filter` returns the list unchanged |
| Seqs.FilterAllBut | src/components/SaleForm.tsx:91 | when all elements but one pass, the others stay in order and that one stays iff it passes |
| Seqs.DistinctPermutation | src/pages/Dashboard.tsx:40 | a rearrangement of a repeat-free list is repeat-free |
| Seqs.InsertDescSorted | src/pages/Dashboard.tsx:40 | inserting into a list sorted largest-first keeps it sorted |
| Seqs.SortDesc | src/pages/Dashboard.tsx:40 | sorting with comparator `key(b) - key(a)` yields a permutation of the input, non-increasing in `key` |
| Seqs.Take | src/pages/Dashboard.tsx:41 | `slice(0, n)` is the prefix of exactly `n` elements, or the whole list when it is shorter |
| KeyOrder.KeyLe | src/lib/db.ts:55 | the order `getAll` lists string keys in: the empty key first, otherwise by first character, ties broken by the rest; the four lemmas below make it a total order |
| KeyOrder.KeyLeTotal | src/lib/db.ts:55 | any two keys are comparable |
| KeyOrder.KeyLeAntisymmetric | src/lib/db.ts:55 | keys ordered both ways are equal |
| KeyOrder.KeyLeTransitive | src/lib/db.ts:55 | the key order is transitive |
| KeyOrder.KeyLeReflexive | src/lib/db.ts:55 | every key sorts no later than itself |
| KeyOrder.LeastExists | src/lib/db.ts:55 | every non-empty set of keys has a first key |
| KeyOrder.SortedKeys | src/lib/db.ts:55 | a store's keys listed once each, strictly ascending, and no others |
| KeyOrder.ValuesByKey | src/lib/db.ts:55 | `getAll`: one value per key, in ascending key order |
| KeyOrder.ValuesByKeyIndexing | src/lib/db.ts:55 | position `i` of `getAll` is the value under the `i`-th key, and every stored value appears |
| Types.StartsWith | src/lib/db.ts:94 | `startsWith`: the string's first `\|prefix\|` characters are the prefix |
| Types.DecimalString | src/lib/db.ts:99 | the `${Date.now()}` part of an id: a non-empty string of decimal digits |
| Db.NewEntry | src/lib/db.ts:97-106 | a queue entry's id is exactly `type_action_<data.id>_<Date.now()>`, and it stores type, action, the whole record and the timestamp |
| Db.NeedsSync | src/lib/db.ts:63 | `!record.synced`: a write queues an entry unless the record is marked `synced: true`, so an absent flag queues like `false` |
| Db.CarWashDb.constructor | src/lib/db.ts:25 | before first use no handle is open and the stores hold what earlier sessions stored |
| Db.CarWashDb.InitDb | src/lib/db.ts:27-51 | opening sets the handle and changes no stored record |
| Db.CarWashDb.EnsureOpen | src/lib/db.ts:54 | after the open-if-absent step the handle is open, stores untouched |
| Db.CarWashDb.GetCustomers | src/lib/db.ts:53-56 | returns the customers in key order and changes no store |
| Db.CarWashDb.AddCustomer | src/lib/db.ts:58-66 | an existing id fails and changes no store; otherwise the customer is stored and one `create` entry is tried iff it is unsynced; sales untouched |
| Db.CarWashDb.UpdateCustomer | src/lib/db.ts:68-75 | afterwards `customers[c.id] == c` whether or not the id existed; an `update` entry is tried iff unsynced |
| Db.CarWashDb.GetSales | src/lib/db.ts:77-80 | returns the sales in key order and changes no store |
| Db.CarWashDb.AddSale | src/lib/db.ts:82-89 | an existing id fails and changes no store; otherwise the sale is stored and one `create` entry is tried iff it is unsynced |
| Db.CarWashDb.GetSalesByDate | src/lib/db.ts:91-95 | returns the stored sales whose `createdAt` starts with the date, in key order, and changes no store |
| Db.CarWashDb.AddToSyncQueue | src/lib/db.ts:97-107 | adds the new entry under its id, or fails without overwriting when that id is taken |
| Db.CarWashDb.GetSyncQueue | src/lib/db.ts:109-112 | returns the queue in key order and changes no store |
| Db.CarWashDb.ClearSyncQueue | src/lib/db.ts:114-117 | empties the queue and leaves customers and sales as they were |
| Db.OnDate | src/lib/db.ts:94 | the date filter keeps only sales whose `createdAt` starts with the date |
| Db.GetAllListsStore | src/lib/db.ts:55 | `getAll` lists every stored record exactly once, under its own key, in strictly ascending key order |
| Db.SalesByDateExact | src/lib/db.ts:91-95 | a sale is returned for a date iff it is stored and its `createdAt` starts with that date |
| Db.QueueListedByIdNotArrival | src/lib/db.ts:99 | a sale entry queued before a customer entry is still listed after it |
| Db.SecondEditInSameMillisecond | src/lib/db.ts:97-106 | two unsynced edits of one customer in one millisecond: the second edit is stored, but its queue entry is rejected and the queue keeps the first snapshot |
| Sync.RemoteGateway.Call | src/hooks/useSync.ts:65 | a remote call either succeeds or throws, and is recorded in order |
| Sync.Dispatch | src/hooks/useSync.ts:63-73 | customer/create, customer/update (by the record's id) and sale/create each map to their call with the stored record; any other pair makes no call |
| Sync.Calls | src/hooks/useSync.ts:61-73 | the calls a drain of the queue makes: the dispatched call of each supported entry, in queue order |
| Sync.Failures | src/hooks/useSync.ts:74-77 | the entries whose call failed, in queue order, given each call's outcome |
| Sync.CallsCountSupported | src/hooks/useSync.ts:61-78 | the drain makes exactly one call per supported entry, whatever earlier calls returned |
| Sync.FailuresAreQueuedCalls | src/hooks/useSync.ts:74-77 | every failed entry is a supported queue entry, and no more fail than calls were made |
| Sync.NoFailuresWhenAllSucceed | src/hooks/useSync.ts:61-78 | when every call succeeds no entry is reported as failed |
| Sync.DrainStepCall | src/hooks/useSync.ts:62-77 | one entry with a call: the call is appended and the entry is reported iff it failed |
| Sync.DrainStepSkip | src/hooks/useSync.ts:62-73 | one entry without a call: nothing is called or reported |
| Sync.SendEach | src/hooks/useSync.ts:61-78 | the loop sends the queue's calls in order, continues past failures, and returns exactly the failed entries |
| Sync.SyncHook.constructor | src/hooks/useSync.ts:7-10 | the status starts with the browser's online flag, nothing pending, no last sync |
| Sync.SyncHook.UpdateOnlineStatus | src/hooks/useSync.ts:13-18 | an online/offline event sets only the online flag |
| Sync.SyncHook.UpdatePendingSync | src/hooks/useSync.ts:20-26 | the pending count becomes the queue length, nothing else changes |
| Sync.SyncHook.Mount | src/hooks/useSync.ts:32 | on mount the pending count is the queue length and the online flag is unchanged |
| Sync.SyncHook.SyncPendingData | src/hooks/useSync.ts:49-55 | offline it returns at once; online it also returns, and it never touches the store, the status or the API |
| Sync.SyncHook.ForceSync | src/hooks/useSync.ts:93-97 | `syncPendingData` is invoked iff online, with no effect |
| Sync.SyncHook.DrainPendingData | src/hooks/useSync.ts:57-90 | offline nothing changes; online every queued entry goes through the dispatch table in key order, then the whole queue is cleared, the pending count is set to 0 and the last-sync time is set, even when calls failed |
| SaleForm.AddToCart | src/components/SaleForm.tsx:59-83 | an id missing from the catalogue leaves the cart as it was; otherwise the id is in the cart afterwards, one line longer iff it was not there before |
| SaleForm.UpdateQuantity | src/components/SaleForm.tsx:85-93 | the cart never grows, and every line left has a quantity above 0 |
| SaleForm.RemoveFromCart | src/components/SaleForm.tsx:95-97 | the cart never grows, and no line with that id is left |
| SaleForm.InCart | src/components/SaleForm.tsx:63-64 | the cart has a line with that id |
| SaleForm.InCartIffFound | src/components/SaleForm.tsx:63-64 | a line with the id is in the cart iff the cart's `find` on that id returns something |
| SaleForm.Bumped | src/components/SaleForm.tsx:65-70 | the `map` that adds one to the quantity of each line with the id and keeps every other line |
| SaleForm.BumpedAt | src/components/SaleForm.tsx:65-70 | in a well-formed cart the bump changes only the line at the id's position, by one unit |
| SaleForm.Adjusted | src/components/SaleForm.tsx:86-90 | the `map` that sets the line with the id to `Math.max(0, q + change)` and keeps every other line |
| SaleForm.AdjustedSplit | src/components/SaleForm.tsx:86-90 | when the id is only at position `k`, the adjusted cart equals the old one before and after `k` |
| SaleForm.CartTotal | src/components/SaleForm.tsx:99-101 | the sum of price times quantity over the cart; its properties are the CartTotal lemmas below |
| SaleForm.CartTotalNonNegative | src/components/SaleForm.tsx:99-101 | with non-negative prices and quantities the total is never below zero |
| SaleForm.CartTotalAppend | src/components/SaleForm.tsx:99-101 | the total of two carts joined is the sum of their totals |
| SaleForm.CartTotalReplace | src/components/SaleForm.tsx:99-101 | replacing one line changes the total by the difference of the two line amounts |
| SaleForm.CartTotalDrop | src/components/SaleForm.tsx:99-101 | dropping one line lowers the total by its amount |
| SaleForm.CartTotalShift | src/components/SaleForm.tsx:99-101 | changing one line's quantity by `d` moves the total by `d` times its price |
| SaleForm.AddToCartExisting | src/components/SaleForm.tsx:63-71 | adding a service already in the cart raises only that line's quantity by 1 and the total by its price, and keeps ids unique and quantities at least 1 |
| SaleForm.AddToCartNew | src/components/SaleForm.tsx:72-81 | adding a catalogue service not in the cart appends `{id, name, price, quantity: 1}` at the end; the total grows by the price |
| SaleForm.AddToCartWellFormed | src/components/SaleForm.tsx:59-83 | adding keeps ids unique and quantities at least 1, and an id missing from the catalogue leaves the cart unchanged |
| SaleForm.UpdateQuantityAt | src/components/SaleForm.tsx:85-93 | the line gets quantity `q + change` if positive and is dropped otherwise; every other line stays, unchanged and in order |
| SaleForm.UpdateQuantityAbsent | src/components/SaleForm.tsx:85-93 | an id not in the cart changes nothing |
| SaleForm.UpdateQuantityKept | src/components/SaleForm.tsx:85-93 | a change leaving a positive quantity moves the total by `change` times the price and keeps the cart well formed |
| SaleForm.UpdateQuantityDropped | src/components/SaleForm.tsx:85-93 | a change to zero or below removes the line's whole amount from the total and keeps the cart well formed |
| SaleForm.UpdateQuantityWellFormed | src/components/SaleForm.tsx:85-93 | ids stay unique and quantities at least 1 |
| SaleForm.RemoveFromCartAt | src/components/SaleForm.tsx:95-97 | exactly the line with that id goes, the rest stay in order, and the total drops by its amount |
| SaleForm.RemoveFromCartAbsent | src/components/SaleForm.tsx:95-97 | removing an id not in the cart changes nothing |
| SaleForm.RemoveFromCartWellFormed | src/components/SaleForm.tsx:95-97 | ids stay unique and quantities at least 1 |
| SaleForm.PickerCustomers | src/components/SaleForm.tsx:103-106 | the picker lists only customers whose lowered name or phone contains the term, and never more than are loaded |
| SaleForm.PickerCustomersExact | src/components/SaleForm.tsx:103-106 | a loaded customer is listed iff its lowered name or its phone contains the term, in loaded order |
| SaleForm.PickerMatches | src/components/SaleForm.tsx:104-105 | the picker's test: the lowered name contains the lowered term, or the phone contains the term |
| Types.Contains | src/pages/Customers.tsx:58-60 | `includes`: the part occurs in the string, tried at each starting position |
| Types.ContainsAt | src/components/SaleForm.tsx:104-105 | `includes` holds iff the part occurs at some position of the string |
| SaleForm.SaleCustomerName | src/components/SaleForm.tsx:108-125 | with no customer id chosen the typed name; with one chosen, nothing iff no loaded customer has that id |
| SaleForm.BuildSale | src/components/SaleForm.tsx:122-132 | the recorded sale has a `sale_` id, the cart as its services, the cart total as total, the form's customer id and payment method, the customer name chosen as above, the user as cashier, the current time, and `synced: false` |
| SaleForm.SaleCustomerNameChosen | src/components/SaleForm.tsx:108-125 | with a customer id set, the sale's name is that of the first loaded customer with that id |
| SaleForm.SaleFormState.constructor | src/components/SaleForm.tsx:25-42 | the form starts with no customers, an empty cart, cash payment and the search closed |
| SaleForm.SaleFormState.LoadCustomers | src/components/SaleForm.tsx:50-57 | the loaded list is the customers store in key order |
| SaleForm.SaleFormState.AddService | src/components/SaleForm.tsx:59-83 | the cart becomes the added-to cart and stays well formed |
| SaleForm.SaleFormState.UpdateServiceQuantity | src/components/SaleForm.tsx:85-93 | the cart becomes the adjusted and filtered cart and stays well formed |
| SaleForm.SaleFormState.RemoveService | src/components/SaleForm.tsx:95-97 | the cart loses that id and stays well formed |
| SaleForm.SaleFormState.Submit | src/components/SaleForm.tsx:110-148 | an empty cart or no user writes nothing; otherwise the built sale is written with `addSale`; on success the form resets and the cart empties, on failure the form keeps its state |
| CustomerForm.OrEmpty | src/components/CustomerForm.tsx:30-32 | `value \|\| ''` is the value when present, else the empty string |
| CustomerForm.DefaultValues | src/components/CustomerForm.tsx:29-33 | the fields start as the edited customer's name, phone and email, or empty strings |
| CustomerForm.ToInput | src/components/CustomerForm.tsx:36-42 | name and phone pass unchanged; an empty or absent email becomes absent, any other is kept |
| CustomerForm.Accepted | src/components/CustomerForm.tsx:8-12 | the schema: name at least 2 characters, phone at least 10, email absent, empty or passing the email check |
| CustomerForm.Submit | src/components/CustomerForm.tsx:8-42 | values are handed on iff name has at least 2 characters, phone at least 10, and email is absent, empty or passes the email check; what is handed on is the mapping above, email included |
| CustomerForm.DefaultsRoundTrip | src/components/CustomerForm.tsx:29-42 | submitting an untouched edit form of a valid customer hands back its name, phone and email |
| CustomerForm.BlankFormRejected | src/components/CustomerForm.tsx:9 | a blank new-customer form is never accepted |
| Customers.Matches | src/pages/Customers.tsx:57-61 | the page's search test: the lowered name or the lowered non-empty email contains the lowered term, or the phone contains the term |
| Customers.FilterCustomers | src/pages/Customers.tsx:57-61 | the search lists only matching customers and never more than are loaded |
| Customers.FilterCustomersExact | src/pages/Customers.tsx:57-61 | a customer is listed iff it is loaded and its lowered name, its phone or its non-empty lowered email contains the term; the list keeps the loaded order |
| Customers.EmptyTermKeepsAll | src/pages/Customers.tsx:57-61 | an empty search term lists every loaded customer |
| Customers.PickerFindsFewer | src/components/SaleForm.tsx:103-106 | everyone the sale form's customer picker finds, the customers page's search finds too |
| Customers.EditedCustomer | src/pages/Customers.tsx:30-37 | an edit keeps id and creation time, overwrites name, phone and email (an absent email clears the stored one), sets `updatedAt = now` and `synced: false` |
| Customers.NewCustomer | src/pages/Customers.tsx:38-46 | a new customer gets a `customer_` id, `createdAt == updatedAt == now`, the form's fields, and `synced: false` |
| Customers.UntouchedEditKeepsCustomer | src/pages/Customers.tsx:30-37 | saving an untouched edit form sets `updatedAt` and `synced: false`, turns an empty email into an absent one, and changes nothing else |
| Customers.CustomersPage.constructor | src/pages/Customers.tsx:8-11 | the page starts with no customers, no search, the form closed and nothing being edited |
| Customers.CustomersPage.LoadCustomers | src/pages/Customers.tsx:17-24 | the list is the customers store in key order |
| Customers.CustomersPage.OpenEditForm | src/pages/Customers.tsx:63-66 | opens the form on that customer |
| Customers.CustomersPage.OpenNewForm | src/pages/Customers.tsx:68-71 | opens the form with no customer |
| Customers.CustomersPage.CancelForm | src/pages/Customers.tsx:172-175 | closes the form and forgets the edited customer |
| Customers.CustomersPage.WriteCustomer | src/pages/Customers.tsx:26-47 | an edit is upserted with an `update` entry tried; a new customer is inserted (or fails on a taken id) with a `create` entry tried; sales untouched |
| Customers.CustomersPage.HandleSaveCustomer | src/pages/Customers.tsx:26-55 | the write above; on success the list is reloaded from the store and the form closed, on failure the page keeps its state |
| Dashboard.Names | src/pages/Dashboard.tsx:38 | the tallied names, each once, are exactly the names of the lines |
| Dashboard.QuantityAbsent | src/pages/Dashboard.tsx:31-36 | a name with no line has quantity 0 |
| Dashboard.AddCount | src/pages/Dashboard.tsx:34 | the assignment `serviceCount[name] = (serviceCount[name] \|\| 0) + quantity`: a known name gains the line's quantity, a new name starts at it |
| Dashboard.AddName | src/pages/Dashboard.tsx:34 | the key order after that assignment: a new name is appended, a known name keeps its place |
| Dashboard.TallyStep | src/pages/Dashboard.tsx:34 | one assignment `count = (count \|\| 0) + quantity` keeps the dictionary equal to the tally of the lines seen |
| Dashboard.TallyLines | src/pages/Dashboard.tsx:33-35 | the inner loop adds one sale's lines to the tally |
| Dashboard.TallyServices | src/pages/Dashboard.tsx:31-36 | each tallied name's count is the sum of `quantity` over all lines with that name; keys are listed in first-insertion order |
| Dashboard.Entries | src/pages/Dashboard.tsx:38-39 | `Object.entries` of the tally, one `{name, count}` per key in insertion order |
| Dashboard.Popular | src/pages/Dashboard.tsx:38-41 | sorted by count, largest first, then cut to at most five |
| Dashboard.SortedFromEntries | src/pages/Dashboard.tsx:40 | sorting the entries neither adds nor loses an entry |
| Dashboard.PopularTaken | src/pages/Dashboard.tsx:38-41 | the popular list has `min(5, #names)` entries, all from the tally, largest count first |
| Dashboard.PopularUnique | src/pages/Dashboard.tsx:38-41 | no name appears twice in the popular list |
| Dashboard.PopularCutOff | src/pages/Dashboard.tsx:41 | no entry cut off has a larger count than one kept |
| Dashboard.PopularSold | src/pages/Dashboard.tsx:31-41 | every service shown was sold today, with its quantity sold today |
| Dashboard.PopularNotOutsold | src/pages/Dashboard.tsx:38-41 | a service sold today is shown, or sold no more than every service shown |
| Dashboard.Tally | src/pages/Dashboard.tsx:38-39 | the entries, one per name in first-insertion order, each with its quantity sold |
| Dashboard.ComputeStats | src/pages/Dashboard.tsx:21-48 | today's sales are those whose `createdAt` starts with today; both counts are their number, revenue is the sum of their totals, the popular list is the top five of the tally |
| Dashboard.PopularServicesSpec | src/pages/Dashboard.tsx:31-41 | at most five of today's service names, each with its true quantity, no repeats, largest first, fewer only when fewer were sold, none left out outsold one shown |
| Dashboard.LoadDashboardStats | src/pages/Dashboard.tsx:19-52 | the figures are computed from every stored sale |
| SalesPage.NewestFirst | src/pages/Sales.tsx:23 | the history is a permutation of the day's sales, latest `createdAt` time first |
| SalesPage.CustomerLabel | src/pages/Sales.tsx:108 | the label is the sale's customer name whenever that is non-empty, and `Walk-in Customer` otherwise |
| SalesPage.PendingBadge | src/pages/Sales.tsx:117 | the "Pending sync" badge shows exactly when the sale is not marked synced |
| Types.SumTotals | src/pages/Sales.tsx:36 | the sum of `total` over a list of sales, as the revenue reducers compute it |
| SalesPage.SumTotalsInsert | src/pages/Sales.tsx:36 | inserting a sale adds its total to the sum |
| SalesPage.SumTotalsSorted | src/pages/Sales.tsx:36 | sorting does not change the sum of totals |
| SalesPage.RevenueOfSortedList | src/pages/Sales.tsx:36 | the revenue and count shown equal the sum of totals and the number of the day's sales as fetched |
| SalesPage.RecordedSaleLabels | src/pages/Sales.tsx:108-117 | a sale recorded by the sale form shows "Pending sync" and is labelled with the picked customer's name |
| SalesPage.LoadSalesByDate | src/pages/Sales.tsx:20-27 | the history is the stored sales of the date, newest first |
| SalesPage.HistoryListsDay | src/pages/Sales.tsx:22-23 | a sale is listed iff it is stored and its `createdAt` starts with the date |

## Left out

- Asynchrony: every `async` operation runs to completion before the next one starts. Interleaved awaits, React state batching, event listeners and service-worker messages are not modelled.
- Storage faults: quota errors, a blocked or failed `openDB`, and aborted transactions are left out. The only store failure modelled is `add` on a taken key.
- The store's secondary indexes are declared but never queried, so they are left out.
- Moving the sales history to another date is not modelled. The history is whatever the last `loadSalesByDate` produced.
- The outer `try`/`catch` of the drain is not modelled, because reading and clearing the queue cannot fail in the model.
- The remote API client (`src/lib/api.ts`) is not part of this model: its request path always throws. Token storage is browser I/O. The drain sees the API only as `RemoteGateway.Call`.
- `src/App.tsx`, `src/components/Layout.tsx` and `src/hooks/useAuth.tsx` are not part of this model: they hold routing, rendering and a mock sign-in. The signed-in user is a parameter of `Submit`.
- Console output is left out: the `console.log` of `syncPendingData` and the drain's per-entry `console.error`. Neither changes any state.
- Rendering is left out: the money formatting with `toFixed(2)`, the online and pending labels, and `alert` messages.
- Money is whole cents, so floating-point rounding of JavaScript numbers is not captured.
- Strings are sequences of characters, while `length`, `startsWith` and IndexedDB's key comparison work on UTF-16 code units. Lengths differ for characters outside the Basic Multilingual Plane. Key order differs only between such a character and one in U+E000..U+FFFF.
- `toLowerCase`, the email check and date parsing are parameters:
  - `toLowerCase` is an abstract `lower` function;
  - the email check is `isEmail`;
  - date parsing is `time`. A `createdAt` that parses to `NaN` (which breaks the comparator) is not modelled.
- `format(new Date(), 'yyyy-MM-dd')` is in local time, while `createdAt` is an ISO string in UTC. The model takes both as given strings, so it does not capture sales near midnight landing on the other day.
- Dashboard.TallyServices: the entry order is first insertion. `Object.entries` would list integer-like service names first, in numeric order. A name such as `__proto__` would not become an ordinary key. A name inherited from `Object.prototype`, such as `constructor`, `toString` or `valueOf`, would start from a function instead of 0, so its count would become a string and the comparator would give NaN. None of these cases is modelled.
- Seqs.SortDesc: the sort is stable, as the engine's is, but stability is not stated as a property. Only permutation and ordering are proved.
- Sale ids, customer ids and queue ids are built from the clock and a random suffix given as parameters. Nothing is claimed about their uniqueness, beyond the collision that `SecondEditInSameMillisecond` exhibits.
