/** The on-device database `carwash-pos`: three object stores keyed by the
    record's `id` (customers, sales, sync_queue), opened lazily on first use.
    Each write of a customer or sale that is not marked synced is followed by an
    entry in the sync queue carrying a snapshot of the record. The record write
    and the queue write are two separate steps: when the second fails, the first
    stays. */
module Db {
  import opened Types
  import opened Seqs
  import opened KeyOrder

  datatype EntityType = CustomerType | SaleType
  datatype Action = Create | Update | Delete

  /** The `data` of a queue entry: the whole record as it was written. */
  datatype Payload = CustomerData(customer: Customer) | SaleData(sale: Sale)
  {
    function Id(): string {
      match this
      case CustomerData(c) => c.id
      case SaleData(s) => s.id
    }
  }

  datatype QueueEntry = QueueEntry(
    id: string,
    entityType: EntityType,
    action: Action,
    data: Payload,
    timestamp: string)

  datatype StoreName = CustomersStore | SalesStore | SyncQueueStore

  /** `add` on a key the store already holds fails (IndexedDB's ConstraintError). */
  datatype DbError = KeyExists(store: StoreName)

  datatype Outcome = Ok | Err(error: DbError)

  /** The instant an operation reads: `Date.now()` and `new Date().toISOString()`. */
  datatype Clock = Clock(millis: nat, iso: string)

  function TypeName(t: EntityType): string {
    match t
    case CustomerType => "customer"
    case SaleType => "sale"
  }

  function ActionName(a: Action): string {
    match a
    case Create => "create"
    case Update => "update"
    case Delete => "delete"
  }

  /** The entry that `addToSyncQueue(type, action, data)` writes at `clock`. Its id is
      `type_action_<data.id>_<Date.now()>`, so two entries for the same record and
      action written in the same millisecond share an id. */
  function NewEntry(t: EntityType, a: Action, data: Payload, clock: Clock): (e: QueueEntry)
    ensures e.id == TypeName(t) + "_" + ActionName(a) + "_" + data.Id() + "_" + DecimalString(clock.millis)
    ensures StartsWith(e.id, TypeName(t) + "_" + ActionName(a) + "_" + data.Id() + "_")
    ensures e.entityType == t && e.action == a && e.data == data && e.timestamp == clock.iso
  {
    var prefix := TypeName(t) + "_" + ActionName(a) + "_" + data.Id() + "_";
    var id := prefix + DecimalString(clock.millis);
    assert id[..|prefix|] == prefix;
    QueueEntry(id, t, a, data, clock.iso)
  }

  function CustomerKey(c: Customer): string { c.id }
  function SaleKey(s: Sale): string { s.id }
  function EntryKey(e: QueueEntry): string { e.id }

  /** Every record is stored under its own `id` (the stores' keyPath). */
  ghost predicate KeyedBy<V>(store: map<string, V>, key: V -> string) {
    forall k :: k in store ==> key(store[k]) == k
  }

  /** Whether a record write is followed by a queue entry: `if (!record.synced)`. */
  predicate NeedsSync(synced: Option<bool>) {
    !IsTrue(synced)
  }

  /** `sales.filter(sale => sale.createdAt.startsWith(date))` */
  function OnDate(sales: seq<Sale>, date: string): (r: seq<Sale>)
    ensures |r| <= |sales|
    ensures forall i :: 0 <= i < |r| ==> StartsWith(r[i].createdAt, date)
  {
    Filter(sales, (s: Sale) => StartsWith(s.createdAt, date))
  }

  /** The queue after `addToSyncQueue` tried to add `e` to `before`, with its outcome. */
  ghost predicate AddedEntry(before: map<string, QueueEntry>, after: map<string, QueueEntry>,
                             e: QueueEntry, r: Outcome) {
    if e.id in before then after == before && r == Err(KeyExists(SyncQueueStore))
    else after == before[e.id := e] && r == Ok
  }

  /** The queue after a record write that enqueues `e` only when `enqueue` holds. */
  ghost predicate EnqueuedIf(enqueue: bool, before: map<string, QueueEntry>,
                             after: map<string, QueueEntry>, e: QueueEntry, r: Outcome) {
    if enqueue then AddedEntry(before, after, e, r) else after == before && r == Ok
  }

  class CarWashDb {
    /** Whether the module-level `db` handle has been assigned. */
    var isOpen: bool
    var customers: map<string, Customer>
    var sales: map<string, Sale>
    var syncQueue: map<string, QueueEntry>

    ghost predicate Valid()
      reads this
    {
      KeyedBy(customers, CustomerKey) && KeyedBy(sales, SaleKey) && KeyedBy(syncQueue, EntryKey)
    }

    /** The database as the device holds it when the app loads: whatever earlier
        sessions stored, and no open handle yet. */
    constructor (storedCustomers: map<string, Customer>, storedSales: map<string, Sale>,
                 storedQueue: map<string, QueueEntry>)
      requires KeyedBy(storedCustomers, CustomerKey) && KeyedBy(storedSales, SaleKey)
      requires KeyedBy(storedQueue, EntryKey)
      ensures Valid() && !isOpen
      ensures customers == storedCustomers && sales == storedSales && syncQueue == storedQueue
    {
      isOpen := false;
      customers, sales, syncQueue := storedCustomers, storedSales, storedQueue;
    }

    /** `initDB`: opens the database; the upgrade step only creates stores that are
        missing, so nothing already stored changes. */
    method InitDb()
      modifies this`isOpen
      ensures isOpen
    {
      isOpen := true;
    }

    /** `if (!db) await initDB();` at the head of every operation. */
    method EnsureOpen()
      modifies this`isOpen
      ensures isOpen
    {
      if !isOpen {
        InitDb();
      }
    }

    method GetCustomers() returns (r: seq<Customer>)
      modifies this`isOpen
      ensures isOpen
      ensures r == ValuesByKey(customers)
    {
      EnsureOpen();
      r := ValuesByKey(customers);
    }

    /** `addCustomer`: insert-only `add`, then a `create` entry unless the customer is synced. */
    method AddCustomer(c: Customer, clock: Clock) returns (r: Outcome)
      requires Valid()
      modifies this
      ensures Valid() && isOpen && sales == old(sales)
      ensures c.id in old(customers) ==>
        r == Err(KeyExists(CustomersStore)) && customers == old(customers) && syncQueue == old(syncQueue)
      ensures c.id !in old(customers) ==>
        && customers == old(customers)[c.id := c]
        && EnqueuedIf(NeedsSync(c.synced), old(syncQueue), syncQueue,
                      NewEntry(CustomerType, Create, CustomerData(c), clock), r)
    {
      EnsureOpen();
      if c.id in customers {
        return Err(KeyExists(CustomersStore));
      }
      customers := customers[c.id := c];
      r := Ok;
      if NeedsSync(c.synced) {
        r := AddToSyncQueue(CustomerType, Create, CustomerData(c), clock);
      }
    }

    /** `updateCustomer`: upsert with `put`, then an `update` entry unless the customer is synced. */
    method UpdateCustomer(c: Customer, clock: Clock) returns (r: Outcome)
      requires Valid()
      modifies this
      ensures Valid() && isOpen && sales == old(sales)
      ensures customers == old(customers)[c.id := c]
      ensures EnqueuedIf(NeedsSync(c.synced), old(syncQueue), syncQueue,
                         NewEntry(CustomerType, Update, CustomerData(c), clock), r)
    {
      EnsureOpen();
      customers := customers[c.id := c];
      r := Ok;
      if NeedsSync(c.synced) {
        r := AddToSyncQueue(CustomerType, Update, CustomerData(c), clock);
      }
    }

    method GetSales() returns (r: seq<Sale>)
      modifies this`isOpen
      ensures isOpen
      ensures r == ValuesByKey(sales)
    {
      EnsureOpen();
      r := ValuesByKey(sales);
    }

    /** `addSale`: insert-only `add`, then a `create` entry unless the sale is synced. */
    method AddSale(s: Sale, clock: Clock) returns (r: Outcome)
      requires Valid()
      modifies this
      ensures Valid() && isOpen && customers == old(customers)
      ensures s.id in old(sales) ==>
        r == Err(KeyExists(SalesStore)) && sales == old(sales) && syncQueue == old(syncQueue)
      ensures s.id !in old(sales) ==>
        && sales == old(sales)[s.id := s]
        && EnqueuedIf(NeedsSync(s.synced), old(syncQueue), syncQueue,
                      NewEntry(SaleType, Create, SaleData(s), clock), r)
    {
      EnsureOpen();
      if s.id in sales {
        return Err(KeyExists(SalesStore));
      }
      sales := sales[s.id := s];
      r := Ok;
      if NeedsSync(s.synced) {
        r := AddToSyncQueue(SaleType, Create, SaleData(s), clock);
      }
    }

    /** `getSalesByDate`: every stored sale whose `createdAt` starts with `date`. */
    method GetSalesByDate(date: string) returns (r: seq<Sale>)
      modifies this`isOpen
      ensures isOpen
      ensures r == OnDate(ValuesByKey(sales), date)
    {
      var all := GetSales();
      r := OnDate(all, date);
    }

    /** `addToSyncQueue`: insert-only `add` of a fresh entry. */
    method AddToSyncQueue(t: EntityType, a: Action, data: Payload, clock: Clock) returns (r: Outcome)
      requires Valid()
      modifies this`isOpen, this`syncQueue
      ensures Valid() && isOpen
      ensures AddedEntry(old(syncQueue), syncQueue, NewEntry(t, a, data, clock), r)
    {
      EnsureOpen();
      var e := NewEntry(t, a, data, clock);
      if e.id in syncQueue {
        return Err(KeyExists(SyncQueueStore));
      }
      syncQueue := syncQueue[e.id := e];
      r := Ok;
    }

    method GetSyncQueue() returns (r: seq<QueueEntry>)
      modifies this`isOpen
      ensures isOpen
      ensures r == ValuesByKey(syncQueue)
    {
      EnsureOpen();
      r := ValuesByKey(syncQueue);
    }

    /** `clearSyncQueue`: empties the queue store only. */
    method ClearSyncQueue()
      requires Valid()
      modifies this`isOpen, this`syncQueue
      ensures Valid() && isOpen
      ensures syncQueue == map[]
    {
      EnsureOpen();
      syncQueue := map[];
    }
  }

  /** `getAll` on a store keyed by `key` lists each stored record exactly once, in
      strictly ascending key order. */
  lemma GetAllListsStore<V>(store: map<string, V>, key: V -> string)
    requires KeyedBy(store, key)
    ensures var r := ValuesByKey(store);
      && (forall i :: 0 <= i < |r| ==> key(r[i]) in store && store[key(r[i])] == r[i])
      && (forall k :: k in store ==> exists i :: 0 <= i < |r| && r[i] == store[k])
      && (forall i, j :: 0 <= i < j < |r| ==> KeyLe(key(r[i]), key(r[j])) && key(r[i]) != key(r[j]))
  {
    ValuesByKeyIndexing(store);
  }

  /** `getSalesByDate(date)` returns exactly the stored sales whose `createdAt`
      starts with `date`. */
  lemma SalesByDateExact(sales: map<string, Sale>, date: string, s: Sale)
    requires KeyedBy(sales, SaleKey)
    ensures s in OnDate(ValuesByKey(sales), date) <==> s in sales.Values && StartsWith(s.createdAt, date)
  {
    var all := ValuesByKey(sales);
    FilterMembers(all, (x: Sale) => StartsWith(x.createdAt, date), s);
    GetAllListsStore(sales, SaleKey);
    if s in sales.Values {
      var k :| k in sales && sales[k] == s;
      assert exists i :: 0 <= i < |all| && all[i] == sales[k];
    }
  }

  /** `getSyncQueue` lists entries by id, not by arrival: a `sale` entry queued before
      a `customer` entry is still listed after it, since "customer_..." sorts before
      "sale_...". */
  lemma QueueListedByIdNotArrival(s: Sale, c: Customer, saleClock: Clock, customerClock: Clock)
    ensures var se := NewEntry(SaleType, Create, SaleData(s), saleClock);
      var ce := NewEntry(CustomerType, Create, CustomerData(c), customerClock);
      ValuesByKey(map[se.id := se][ce.id := ce]) == [ce, se]
  {
    var se := NewEntry(SaleType, Create, SaleData(s), saleClock);
    var ce := NewEntry(CustomerType, Create, CustomerData(c), customerClock);
    var queue := map[se.id := se][ce.id := ce];
    assert se.id[0] == 's' && ce.id[0] == 'c';
    assert queue.Keys == {se.id, ce.id};
    var ks := SortedKeys(queue.Keys);
    assert |ks| == 2 by {
      assert |{se.id, ce.id}| == 2;
    }
    assert !KeyLe(se.id, ce.id);
    assert ks[0] in queue.Keys && ks[1] in queue.Keys && ks[0] != ks[1];
    assert ks[0] == ce.id && ks[1] == se.id;
  }

  /** Two unsynced edits of one customer stamped in the same millisecond: the second
      queue entry gets the first one's id, so its `add` fails and the caller sees an
      error, yet the second edit of the record has already been stored. */
  method SecondEditInSameMillisecond(db: CarWashDb, first: Customer, second: Customer, clock: Clock)
    returns (r1: Outcome, r2: Outcome)
    requires db.Valid() && first.id == second.id
    requires NeedsSync(first.synced) && NeedsSync(second.synced)
    requires NewEntry(CustomerType, Update, CustomerData(first), clock).id !in db.syncQueue
    modifies db
    ensures r1 == Ok && r2 == Err(KeyExists(SyncQueueStore))
    ensures db.customers == old(db.customers)[second.id := second]
    ensures db.syncQueue == old(db.syncQueue)[NewEntry(CustomerType, Update, CustomerData(first), clock).id
                                              := NewEntry(CustomerType, Update, CustomerData(first), clock)]
  {
    r1 := db.UpdateCustomer(first, clock);
    r2 := db.UpdateCustomer(second, clock);
  }
}
