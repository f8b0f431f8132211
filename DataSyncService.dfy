/** The offline queue behind every upload: a failed send queues its items,
    and a periodic sync resends the queue one item at a time, removing
    those that got through. Network availability and each request's outcome
    are inputs. */
module Sync {
  import opened Lang
  import opened Events

  /** The body of a server answer (`ApiResponse`); only `success` matters. */
  datatype ApiResponse = ApiResponse(success: bool)

  /** A Retrofit response: its status and its parsed body, if any. */
  datatype Response = Response(isSuccessful: bool, body: Option<ApiResponse>)

  /** What one request did: answered, or threw. */
  datatype Attempt = Answered(response: Response) | Threw

  /** `response.isSuccessful && response.body()?.success == true`. */
  predicate Succeeded(a: Attempt)
  {
    a.Answered? && a.response.isSuccessful && a.response.body.Some? && a.response.body.value.success
  }

  /** The items whose resend succeeded, in queue order (`itemsToRemove`). */
  function Successes(items: seq<AnalyticsData>, attempts: seq<Attempt>): (r: seq<AnalyticsData>)
    requires |attempts| == |items|
  {
    if items == [] then []
    else (if Succeeded(attempts[0]) then [items[0]] else []) + Successes(items[1..], attempts[1..])
  }

  /** The items whose resend failed or threw, in queue order. */
  function Failures(items: seq<AnalyticsData>, attempts: seq<Attempt>): (r: seq<AnalyticsData>)
    requires |attempts| == |items|
  {
    if items == [] then []
    else (if Succeeded(attempts[0]) then [] else [items[0]]) + Failures(items[1..], attempts[1..])
  }

  /** Each item is either a success or a failure. */
  lemma {:induction false} SuccessesAndFailuresPartition(items: seq<AnalyticsData>, attempts: seq<Attempt>)
    requires |attempts| == |items|
    ensures multiset(Successes(items, attempts)) + multiset(Failures(items, attempts)) == multiset(items)
  {
    if items != [] {
      SuccessesAndFailuresPartition(items[1..], attempts[1..]);
      assert items == [items[0]] + items[1..];
    }
  }

  /** `ConcurrentLinkedQueue.remove(x)`: drops the first element equal to
      `x`, if there is one. */
  function RemoveFirst(q: seq<AnalyticsData>, x: AnalyticsData): (r: seq<AnalyticsData>)
    ensures x in q ==> multiset(r) == multiset(q) - multiset{x} && |r| == |q| - 1
    ensures x !in q ==> r == q
  {
    if q == [] then []
    else
      assert q == [q[0]] + q[1..];
      if q[0] == x then q[1..] else [q[0]] + RemoveFirst(q[1..], x)
  }

  /** `itemsToRemove.forEach { offlineQueue.remove(it) }`. */
  function RemoveEach(q: seq<AnalyticsData>, xs: seq<AnalyticsData>): seq<AnalyticsData>
    decreases |xs|
  {
    if xs == [] then q else RemoveEach(RemoveFirst(q, xs[0]), xs[1..])
  }

  /** Removing items that are all present, counting repeats, takes away
      exactly those items. */
  lemma {:induction false} RemoveEachSubtracts(q: seq<AnalyticsData>, xs: seq<AnalyticsData>)
    requires multiset(xs) <= multiset(q)
    ensures multiset(RemoveEach(q, xs)) == multiset(q) - multiset(xs)
    decreases |xs|
  {
    if xs != [] {
      var x, rest := xs[0], xs[1..];
      assert xs == [x] + rest;
      assert multiset(xs) == multiset{x} + multiset(rest);
      assert x in multiset(q);
      var q' := RemoveFirst(q, x);
      assert multiset(q') == multiset(q) - multiset{x};
      assert multiset(rest) <= multiset(q');
      RemoveEachSubtracts(q', rest);
      assert RemoveEach(q, xs) == RemoveEach(q', rest);
    }
  }

  /** Removal never adds anything. */
  lemma {:induction false} RemoveEachShrinks(q: seq<AnalyticsData>, xs: seq<AnalyticsData>)
    ensures multiset(RemoveEach(q, xs)) <= multiset(q)
    decreases |xs|
  {
    if xs != [] {
      RemoveEachShrinks(RemoveFirst(q, xs[0]), xs[1..]);
    }
  }

  lemma {:induction false} SuccessesAreQueued(items: seq<AnalyticsData>, attempts: seq<Attempt>)
    requires |attempts| == |items|
    ensures multiset(Successes(items, attempts)) <= multiset(items)
  {
    SuccessesAndFailuresPartition(items, attempts);
  }

  /** A replay leaves exactly the items whose resend failed, one occurrence
      removed per success, and adds nothing. */
  lemma ReplayKeepsExactlyFailures(q: seq<AnalyticsData>, attempts: seq<Attempt>)
    requires |attempts| == |q|
    ensures multiset(RemoveEach(q, Successes(q, attempts))) == multiset(Failures(q, attempts))
    ensures |RemoveEach(q, Successes(q, attempts))| <= |q|
  {
    SuccessesAndFailuresPartition(q, attempts);
    RemoveEachSubtracts(q, Successes(q, attempts));
    assert multiset(q) - multiset(Successes(q, attempts)) == multiset(Failures(q, attempts));
  }

  /** When every resend fails the queue is kept as it was, in order. */
  lemma {:induction false} AllFailedKeepsQueue(q: seq<AnalyticsData>, attempts: seq<Attempt>)
    requires |attempts| == |q|
    requires forall i :: 0 <= i < |attempts| ==> !Succeeded(attempts[i])
    ensures Successes(q, attempts) == [] && Failures(q, attempts) == q
  {
    if q != [] {
      AllFailedKeepsQueue(q[1..], attempts[1..]);
    }
  }

  /** The periodic sync loop's guard. */
  predicate ShouldProcessQueue(networkAvailable: bool, queue: seq<AnalyticsData>)
  {
    networkAvailable && |queue| > 0
  }

  /** The upload service with its in-memory offline queue. */
  class DataSyncService {
    var offlineQueue: seq<AnalyticsData>

    /** Construction runs `loadOfflineData`, which only deletes the files an
        earlier instance persisted: the queue starts empty. */
    constructor ()
      ensures offlineQueue == []
    {
      offlineQueue := [];
    }

    /** `queueDataOffline`: appends at the tail. */
    method QueueDataOffline(data: AnalyticsData)
      modifies this
      ensures offlineQueue == old(offlineQueue) + [data]
    {
      offlineQueue := offlineQueue + [data];
    }

    /** `sendData`: one request; the item is queued when there is no
        network, the request fails or it throws. */
    method SendData(data: AnalyticsData, networkAvailable: bool, attempt: Attempt) returns (success: bool)
      modifies this
      ensures success <==> networkAvailable && Succeeded(attempt)
      ensures offlineQueue == if success then old(offlineQueue) else old(offlineQueue) + [data]
    {
      if !networkAvailable {
        QueueDataOffline(data);
        return false;
      }
      success := Succeeded(attempt);
      if !success {
        QueueDataOffline(data);
      }
    }

    /** Queues every item of `dataList`, in order. */
    method QueueAll(dataList: seq<AnalyticsData>)
      modifies this
      ensures offlineQueue == old(offlineQueue) + dataList
    {
      var i := 0;
      while i < |dataList|
        invariant 0 <= i <= |dataList|
        invariant offlineQueue == old(offlineQueue) + dataList[..i]
      {
        QueueDataOffline(dataList[i]);
        assert dataList[..i + 1] == dataList[..i] + [dataList[i]];
        i := i + 1;
      }
      assert dataList[..i] == dataList;
    }

    /** `sendBatchData`: ONE request carrying the whole list; on no network,
        failure or an exception every item is queued, in order. */
    method SendBatchData(dataList: seq<AnalyticsData>, networkAvailable: bool, attempt: Attempt) returns (success: bool)
      modifies this
      ensures success <==> networkAvailable && Succeeded(attempt)
      ensures offlineQueue == if success then old(offlineQueue) else old(offlineQueue) + dataList
    {
      if !networkAvailable {
        QueueAll(dataList);
        return false;
      }
      success := Succeeded(attempt);
      if !success {
        QueueAll(dataList);
      }
    }

    /** `processOfflineQueue`: resends every queued item (`attempts[i]` is
        what the resend of the i-th did), collects the successes and then
        removes one equal item per success. */
    method ProcessOfflineQueue(attempts: seq<Attempt>)
      requires |attempts| == |offlineQueue|
      modifies this
      ensures offlineQueue == RemoveEach(old(offlineQueue), Successes(old(offlineQueue), attempts))
    {
      var itemsToRemove: seq<AnalyticsData> := [];
      var i := 0;
      while i < |offlineQueue|
        invariant 0 <= i <= |offlineQueue|
        invariant offlineQueue == old(offlineQueue)
        invariant Successes(offlineQueue, attempts) == itemsToRemove + Successes(offlineQueue[i..], attempts[i..])
      {
        assert offlineQueue[i..][1..] == offlineQueue[i + 1..];
        assert attempts[i..][1..] == attempts[i + 1..];
        if Succeeded(attempts[i]) {
          itemsToRemove := itemsToRemove + [offlineQueue[i]];
        }
        i := i + 1;
      }
      assert Successes(offlineQueue[i..], attempts[i..]) == [];
      assert itemsToRemove == Successes(old(offlineQueue), attempts);
      var j := 0;
      ghost var q0 := offlineQueue;
      while j < |itemsToRemove|
        invariant 0 <= j <= |itemsToRemove|
        invariant RemoveEach(q0, itemsToRemove) == RemoveEach(offlineQueue, itemsToRemove[j..])
      {
        assert itemsToRemove[j..][1..] == itemsToRemove[j + 1..];
        offlineQueue := RemoveFirst(offlineQueue, itemsToRemove[j]);
        j := j + 1;
      }
      assert itemsToRemove[j..] == [];
      assert RemoveEach(offlineQueue, []) == offlineQueue;
    }

    /** One pass of the periodic sync loop. */
    method SyncCycle(networkAvailable: bool, attempts: seq<Attempt>)
      requires |attempts| == |offlineQueue|
      modifies this
      ensures ShouldProcessQueue(networkAvailable, old(offlineQueue)) ==>
                offlineQueue == RemoveEach(old(offlineQueue), Successes(old(offlineQueue), attempts))
      ensures !ShouldProcessQueue(networkAvailable, old(offlineQueue)) ==> offlineQueue == old(offlineQueue)
    {
      if networkAvailable && |offlineQueue| > 0 {
        ProcessOfflineQueue(attempts);
      }
    }

    /** `getQueueSize`. */
    function GetQueueSize(): (n: nat)
      reads this
      ensures n == |offlineQueue| && (n == 0 <==> offlineQueue == [])
    {
      |offlineQueue|
    }

    /** `clearQueue`: empties the queue (and deletes its files). */
    method ClearQueue()
      modifies this
      ensures offlineQueue == [] && GetQueueSize() == 0
    {
      offlineQueue := [];
    }
  }
}
