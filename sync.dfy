/** The `useSync` hook: a sync status (online flag, pending count, last sync
    time) updated by connectivity events and by reading the queue, and the
    `syncPendingData` operation. As shipped, `syncPendingData` returns at once;
    the drain it will run once the API is ready is kept in a comment, and is
    modelled here as `DrainPendingData`, exactly as that comment reads. */
module Sync {
  import opened Types
  import opened KeyOrder
  import opened Db

  /** The remote operations the drain calls. */
  datatype RemoteCall =
    | CreateCustomer(data: Payload)
    | UpdateCustomer(id: string, data: Payload)
    | CreateSale(data: Payload)
  {
    function Data(): Payload {
      match this
      case CreateCustomer(d) => d
      case UpdateCustomer(_, d) => d
      case CreateSale(d) => d
    }
  }

  /** The remote API as the drain sees it: every call either succeeds or throws,
      and which one it does is outside the model. `log` records each call made and
      whether it succeeded. */
  class RemoteGateway {
    var log: seq<(RemoteCall, bool)>

    constructor ()
      ensures log == []
    {
      log := [];
    }

    method Call(c: RemoteCall) returns (ok: bool)
      modifies this
      ensures log == old(log) + [(c, ok)]
    {
      ok := *;
      log := log + [(c, ok)];
    }
  }

  /** The (type, action) pairs the drain knows how to send. */
  predicate Supported(e: QueueEntry) {
    || (e.entityType == CustomerType && e.action == Create)
    || (e.entityType == CustomerType && e.action == Update)
    || (e.entityType == SaleType && e.action == Create)
  }

  /** The drain's dispatch table for one entry: customer/create, customer/update
      (by the payload's id) and sale/create; any other pair makes no call. */
  function Dispatch(e: QueueEntry): (r: Option<RemoteCall>)
    ensures r.Some? <==> Supported(e)
    ensures r.Some? ==> r.value.Data() == e.data
    ensures r.Some? ==> (r.value.UpdateCustomer? <==> e.action == Update)
    ensures r.Some? ==> (r.value.CreateSale? <==> e.entityType == SaleType)
    ensures r.Some? && r.value.UpdateCustomer? ==> r.value.id == e.data.Id()
  {
    match e.entityType
    case CustomerType =>
      if e.action == Create then Some(CreateCustomer(e.data))
      else if e.action == Update then Some(UpdateCustomer(e.data.Id(), e.data))
      else None
    case SaleType =>
      if e.action == Create then Some(CreateSale(e.data)) else None
  }

  /** The calls a drain of `queue` makes, in queue order. */
  function Calls(queue: seq<QueueEntry>): seq<RemoteCall>
    decreases |queue|
  {
    if queue == [] then []
    else
      var e := queue[|queue| - 1];
      Calls(queue[..|queue| - 1]) + (if Dispatch(e).Some? then [Dispatch(e).value] else [])
  }

  /** The entries whose call failed, given the outcome of each call made, in order. */
  function Failures(queue: seq<QueueEntry>, outcomes: seq<bool>): seq<QueueEntry>
    requires |outcomes| == |Calls(queue)|
    decreases |queue|
  {
    if queue == [] then []
    else
      var e, init := queue[|queue| - 1], queue[..|queue| - 1];
      if Dispatch(e).None? then Failures(init, outcomes)
      else Failures(init, outcomes[..|outcomes| - 1]) + (if outcomes[|outcomes| - 1] then [] else [e])
  }

  function CallsMade(log: seq<(RemoteCall, bool)>): seq<RemoteCall> {
    seq(|log|, i requires 0 <= i < |log| => log[i].0)
  }

  function OutcomesOf(log: seq<(RemoteCall, bool)>): seq<bool> {
    seq(|log|, i requires 0 <= i < |log| => log[i].1)
  }

  /** A drain makes one call per supported entry, whatever the outcomes of the
      earlier calls. */
  lemma {:induction false} CallsCountSupported(queue: seq<QueueEntry>)
    ensures |Calls(queue)| == |Seqs.Filter(queue, Supported)|
    decreases |queue|
  {
    if queue != [] {
      var init, e := queue[..|queue| - 1], queue[|queue| - 1];
      CallsCountSupported(init);
      FilterSnoc(init, e);
      assert queue == init + [e];
    }
  }

  lemma {:induction false} FilterSnoc(s: seq<QueueEntry>, e: QueueEntry)
    ensures |Seqs.Filter(s + [e], Supported)| == |Seqs.Filter(s, Supported)| + (if Supported(e) then 1 else 0)
    decreases |s|
  {
    if s == [] {
      assert [] + [e] == [e];
      assert [e][1..] == [];
    } else {
      assert (s + [e])[0] == s[0] && (s + [e])[1..] == s[1..] + [e];
      FilterSnoc(s[1..], e);
    }
  }

  /** Every entry reported as failed is a supported entry of the queue, and no more
      entries fail than calls were made. */
  lemma {:induction false} FailuresAreQueuedCalls(queue: seq<QueueEntry>, outcomes: seq<bool>)
    requires |outcomes| == |Calls(queue)|
    ensures |Failures(queue, outcomes)| <= |outcomes|
    ensures forall e :: e in Failures(queue, outcomes) ==> e in queue && Supported(e)
    decreases |queue|
  {
    if queue != [] {
      var init := queue[..|queue| - 1];
      if Dispatch(queue[|queue| - 1]).None? {
        FailuresAreQueuedCalls(init, outcomes);
      } else {
        FailuresAreQueuedCalls(init, outcomes[..|outcomes| - 1]);
      }
      forall e | e in init
        ensures e in queue
      {
        var i :| 0 <= i < |init| && init[i] == e;
        assert queue[i] == e;
      }
    }
  }

  /** When every call succeeds, no entry is reported as failed. */
  lemma {:induction false} NoFailuresWhenAllSucceed(queue: seq<QueueEntry>, outcomes: seq<bool>)
    requires |outcomes| == |Calls(queue)|
    requires forall i :: 0 <= i < |outcomes| ==> outcomes[i]
    ensures Failures(queue, outcomes) == []
    decreases |queue|
  {
    if queue != [] {
      var init := queue[..|queue| - 1];
      if Dispatch(queue[|queue| - 1]).None? {
        NoFailuresWhenAllSucceed(init, outcomes);
      } else {
        NoFailuresWhenAllSucceed(init, outcomes[..|outcomes| - 1]);
      }
    }
  }

  /** One more entry with a call: the call is appended, and the entry is reported
      iff that call failed. */
  lemma DrainStepCall(queue: seq<QueueEntry>, e: QueueEntry, made: seq<(RemoteCall, bool)>,
                      c: RemoteCall, ok: bool)
    requires CallsMade(made) == Calls(queue) && Dispatch(e) == Some(c)
    ensures CallsMade(made + [(c, ok)]) == Calls(queue + [e])
    ensures |OutcomesOf(made + [(c, ok)])| == |Calls(queue + [e])|
    ensures Failures(queue + [e], OutcomesOf(made + [(c, ok)]))
         == Failures(queue, OutcomesOf(made)) + (if ok then [] else [e])
  {
    assert (queue + [e])[..|queue|] == queue;
    assert OutcomesOf(made + [(c, ok)])[..|made|] == OutcomesOf(made);
  }

  /** One more entry without a call: nothing is called and nothing is reported. */
  lemma DrainStepSkip(queue: seq<QueueEntry>, e: QueueEntry, made: seq<(RemoteCall, bool)>)
    requires CallsMade(made) == Calls(queue) && Dispatch(e).None?
    ensures Calls(queue + [e]) == Calls(queue)
    ensures Failures(queue + [e], OutcomesOf(made)) == Failures(queue, OutcomesOf(made))
  {
    assert (queue + [e])[..|queue|] == queue;
  }

  /** The drain's loop: each entry in turn goes through the dispatch table; a call
      that throws is logged (returned in `failed`) and the loop continues. */
  method SendEach(queue: seq<QueueEntry>, gateway: RemoteGateway) returns (failed: seq<QueueEntry>)
    modifies gateway
    ensures |old(gateway.log)| <= |gateway.log|
    ensures gateway.log[..|old(gateway.log)|] == old(gateway.log)
    ensures CallsMade(gateway.log[|old(gateway.log)|..]) == Calls(queue)
    ensures |OutcomesOf(gateway.log[|old(gateway.log)|..])| == |Calls(queue)|
    ensures failed == Failures(queue, OutcomesOf(gateway.log[|old(gateway.log)|..]))
  {
    ghost var log0 := gateway.log;
    ghost var made: seq<(RemoteCall, bool)> := [];
    failed := [];
    var i := 0;
    while i < |queue|
      invariant 0 <= i <= |queue|
      invariant gateway.log == log0 + made
      invariant CallsMade(made) == Calls(queue[..i])
      invariant |OutcomesOf(made)| == |Calls(queue[..i])|
      invariant failed == Failures(queue[..i], OutcomesOf(made))
    {
      assert queue[..i + 1] == queue[..i] + [queue[i]];
      var call := Dispatch(queue[i]);
      if call.Some? {
        var ok := gateway.Call(call.value);
        DrainStepCall(queue[..i], queue[i], made, call.value, ok);
        made := made + [(call.value, ok)];
        if !ok {
          failed := failed + [queue[i]];
        }
      } else {
        DrainStepSkip(queue[..i], queue[i], made);
      }
      i := i + 1;
    }
    assert queue[..i] == queue;
    assert gateway.log[|log0|..] == made;
  }

  /** Whether `syncPendingData` was entered. */
  datatype SyncOutcome = Offline | SkippedInDevelopment

  class SyncHook {
    var status: SyncStatus

    /** Initial state: `isOnline` from the browser, nothing pending, no last sync. */
    constructor (online: bool)
      ensures status == SyncStatus(online, 0, None)
    {
      status := SyncStatus(online, 0, None);
    }

    /** The `online`/`offline` listener: the flag follows the browser, nothing else changes. */
    method UpdateOnlineStatus(online: bool)
      modifies this
      ensures status == old(status).(isOnline := online)
    {
      status := status.(isOnline := online);
    }

    /** `updatePendingSync`: the pending count becomes the queue's length. */
    method UpdatePendingSync(db: CarWashDb)
      modifies this, db`isOpen
      ensures db.isOpen
      ensures status == old(status).(pendingSync := |db.syncQueue|)
    {
      var queue := db.GetSyncQueue();
      status := status.(pendingSync := |queue|);
    }

    /** The mount effect: reads the pending count; the online flag is left as it was. */
    method Mount(db: CarWashDb)
      modifies this, db`isOpen
      ensures db.isOpen
      ensures status == old(status).(pendingSync := |db.syncQueue|)
    {
      UpdatePendingSync(db);
    }

    /** `syncPendingData` as shipped: offline it returns at once, and online it also
        returns before reading the queue, so it never changes the store, the hook's
        status or the remote side. */
    method SyncPendingData(online: bool, db: CarWashDb, gateway: RemoteGateway) returns (r: SyncOutcome)
      ensures r == Offline <==> !online
      ensures unchanged(this, db, gateway)
    {
      if !online {
        return Offline;
      }
      return SkippedInDevelopment;
    }

    /** `forceSync`: calls `syncPendingData` only while online. */
    method ForceSync(online: bool, db: CarWashDb, gateway: RemoteGateway) returns (invoked: bool)
      ensures invoked == online
      ensures unchanged(this, db, gateway)
    {
      invoked := false;
      if online {
        var _ := SyncPendingData(online, db, gateway);
        invoked := true;
      }
    }

    /** The disabled drain: offline it returns at once; online it reads the queue,
        sends every entry through the dispatch table (a failed call is logged and
        the loop goes on), then clears the whole queue and records the sync, even
        when calls failed. Returns the entries whose call failed. */
    method DrainPendingData(online: bool, db: CarWashDb, gateway: RemoteGateway, nowIso: string)
      returns (failed: seq<QueueEntry>)
      requires db.Valid()
      modifies this, db, gateway
      ensures !online ==> unchanged(this, db, gateway) && failed == []
      ensures |old(gateway.log)| <= |gateway.log|
      ensures gateway.log[..|old(gateway.log)|] == old(gateway.log)
      ensures online ==>
        var queue := ValuesByKey(old(db.syncQueue));
        var made := gateway.log[|old(gateway.log)|..];
        && CallsMade(made) == Calls(queue)
        && |OutcomesOf(made)| == |Calls(queue)|
        && failed == Failures(queue, OutcomesOf(made))
        && db.Valid() && db.syncQueue == map[]
        && db.customers == old(db.customers) && db.sales == old(db.sales)
        && status == old(status).(pendingSync := 0, lastSync := Some(nowIso))
    {
      if !online {
        return [];
      }
      var queue := db.GetSyncQueue();
      failed := SendEach(queue, gateway);
      db.ClearSyncQueue();
      status := status.(pendingSync := 0, lastSync := Some(nowIso));
    }
  }
}
