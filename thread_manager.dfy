/** src/vm/worker/ThreadManager.ts: the class that owns one worker's
    threads.  Each method runs the source's statements on the fields and is
    proved to compute the matching function of ThreadSpec. */
module ThreadManaging {
  import opened Common
  import opened Protocol
  import opened IdIssuing
  import opened ThreadSpec

  class ThreadManager {
    var threads: seq<string>
    var threadsByObjectId: map<string, ThreadRec>
    var pendingRequests: map<int, PendingRequest>
    /** The module-level `requestIdIssuer`, shared by every manager. */
    const requestIdIssuer: IdIssuer
    /** Messages given to `self.postMessage`. */
    var outbox: seq<WorkerToMain>
    /** Calls of a request's `resolve`. */
    var resumed: seq<Resumption>
    /** Objects whose interpreter was stepped, in order. */
    var stepped: seq<string>

    function Abs(): State
      reads this, requestIdIssuer
    {
      State(threads, threadsByObjectId, pendingRequests, requestIdIssuer.id, outbox, resumed, stepped)
    }

    ghost predicate Valid()
      reads this, requestIdIssuer
    {
      Inv(Abs())
    }

    constructor (issuer: IdIssuer)
      requires issuer.id >= 0
      ensures requestIdIssuer == issuer
      ensures Abs() == State([], map[], map[], issuer.id, [], [], [])
      ensures Valid()
    {
      threads := [];
      threadsByObjectId := map[];
      pendingRequests := map[];
      requestIdIssuer := issuer;
      outbox := [];
      resumed := [];
      stepped := [];
    }

    method Spawn(objectId: string, threadId: int)
      requires Valid()
      modifies this
      ensures Valid()
      ensures Abs() == ThreadSpec.Spawn(old(Abs()), objectId, threadId)
    {
      Terminate(objectId);
      var thread := ThreadRec(objectId, threadId, {});
      threads := threads + [thread.objectId];
      threadsByObjectId := threadsByObjectId[thread.objectId := thread];
      outbox := outbox + [WmThreadStart(thread.objectId, thread.threadId)];
      SpawnSupersedes(old(Abs()), objectId, threadId);
    }

    method Terminate(objectId: string)
      requires Valid()
      modifies this
      ensures Valid()
      ensures Abs() == ThreadSpec.Terminate(old(Abs()), objectId)
    {
      if objectId in threadsByObjectId {
        var thread := threadsByObjectId[objectId];
        DestroyThread(thread, IndexOf(threads, objectId));
      }
    }

    method OnTick(results: seq<bool>)
      requires Valid() && |results| == |threads|
      modifies this
      ensures Valid()
      ensures Abs() == Tick(old(Abs()), results)
    {
      var i := |threads| - 1;
      while i >= 0
        invariant Valid()
        invariant -1 <= i < |threads| && i < |results|
        invariant TickFrom(Abs(), i + 1, results) == Tick(old(Abs()), results)
        decreases i
      {
        ghost var before := Abs();
        StepThread(i, results[i]);
        assert TickFrom(before, i + 1, results) == TickFrom(Abs(), i, results);
        i := i - 1;
      }
    }

    /** One iteration of the `onTick` loop; `ok` is what the thread's
        `interpreter.step()` returns. */
    method StepThread(i: nat, ok: bool)
      requires Valid() && i < |threads|
      modifies this
      ensures Valid()
      ensures Abs() == StepAt(old(Abs()), i, ok)
    {
      StepAtInv(Abs(), i, ok);
      var thread := threadsByObjectId[threads[i]];
      stepped := stepped + [threads[i]];
      if !ok {
        DestroyThread(thread, i);
      }
    }

    /** The request id stands for the returned promise. */
    method Request(objectId: JsValue, api: string, params: JsValue) returns (r: Result<int>)
      requires Valid()
      modifies this, requestIdIssuer
      ensures Valid()
      ensures r == ThreadSpec.Request(old(Abs()), objectId, api, params).1
      ensures Abs() == ThreadSpec.Request(old(Abs()), objectId, api, params).0
    {
      ghost var s0 := Abs();
      var found := Lookup(threadsByObjectId, objectId);
      if found.None? {
        return Err("Cannot find thread for object");
      }
      var thread := found.value;
      TablesAdd(s0.threads, s0.byObject, s0.pending, s0.lastRequestId, objectId.s);
      var requestId := requestIdIssuer.Issue();
      pendingRequests := pendingRequests[requestId := PendingRequest(objectId.s)];
      threadsByObjectId := threadsByObjectId[objectId.s := thread.(pending := thread.pending + {requestId})];
      outbox := outbox + [WmApiRequest(objectId.s, thread.threadId, requestId, api, params)];
      r := Ok(requestId);
      assert ThreadSpec.Request(s0, objectId, api, params) == (Abs(), r);
    }

    method OnResponse(requestId: int, params: JsValue)
      requires Valid()
      modifies this
      ensures Valid()
      ensures Abs() == ThreadSpec.OnResponse(old(Abs()), requestId, params)
    {
      OnResponseInv(Abs(), requestId, params);
      if requestId !in pendingRequests {
        return;
      }
      var request := pendingRequests[requestId];
      pendingRequests := pendingRequests - {requestId};
      if request.objectId !in threadsByObjectId {
        return;
      }
      var thread := threadsByObjectId[request.objectId];
      threadsByObjectId := threadsByObjectId[request.objectId := thread.(pending := thread.pending - {requestId})];
      resumed := resumed + [Resumption(requestId, params)];
    }

    /** `destroyThread(thread, index)`: the thread's ids leave the global
        table one at a time, then the thread leaves the list and the map. */
    method DestroyThread(thread: ThreadRec, index: nat)
      requires Valid() && index < |threads|
      requires threads[index] in threadsByObjectId && thread == threadsByObjectId[threads[index]]
      modifies this
      ensures Valid()
      ensures Abs() == DestroyAt(old(Abs()), index)
    {
      DestroyAtInv(Abs(), index);
      pendingRequests := DeleteAll(pendingRequests, thread.pending);
      threads := RemoveAt(threads, index);
      threadsByObjectId := threadsByObjectId - {thread.objectId};
      outbox := outbox + [WmThreadStop(thread.objectId, thread.threadId)];
    }
  }

  /** The `for (const requestId of ids) table.delete(requestId)` loop of
      `destroyThread`: every listed id, and nothing else, leaves the table. */
  method DeleteAll(table: map<int, PendingRequest>, ids: set<int>) returns (r: map<int, PendingRequest>)
    ensures r == table - ids
  {
    r := table;
    var rest := ids;
    while rest != {}
      invariant rest <= ids
      invariant r == table - (ids - rest)
      decreases rest
    {
      NonEmptyHasMember(rest);
      var requestId :| requestId in rest;
      r := r - {requestId};
      rest := rest - {requestId};
    }
  }
}
