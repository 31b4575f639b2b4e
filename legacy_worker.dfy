/** src/vm/worker.ts: the script worker that VirtualMachine and ThreadPool
    load.  It runs an object's compiled `when_run` scripts and turns their
    host calls into numbered requests to the main thread, each message also
    carrying the previous request. */
module LegacyWorker {
  import opened Common

  /** `{ type, params }`: one host call as remembered in `lastReq`. */
  datatype RequestInfo = RequestInfo(api: string, params: JsValue)

  /** What the main thread posts to a script worker: the `init` and `resp`
      messages of VirtualMachine, and the `{ type: MW_STOP }` of ThreadPool. */
  datatype WorkerInput =
    | Init(objectId: string, scripts: map<string, seq<string>>)
    | Resp(requestId: int, response: JsValue)
    | StopRequest

  /** `{ requestId, type, params, lastReq }` posted by `request`. */
  datatype WorkerOutput = WorkerOutput(requestId: int, api: string, params: JsValue, lastReq: Option<RequestInfo>)

  /** The request the i-th call (from 0) of a run of `calls` followed. */
  function Previous(last: Option<RequestInfo>, calls: seq<RequestInfo>, i: nat): Option<RequestInfo>
    requires i < |calls|
  {
    if i == 0 then last else Some(calls[i - 1])
  }

  /** The messages a run of host calls posts, starting with the id counter
      at `counter` and `lastReq` at `last`. */
  function PostedFor(counter: int, last: Option<RequestInfo>, calls: seq<RequestInfo>): (r: seq<WorkerOutput>)
    ensures |r| == |calls|
  {
    if calls == [] then []
    else
      var n := |calls| - 1;
      PostedFor(counter, last, calls[..n])
        + [WorkerOutput(counter + n + 1, calls[n].api, calls[n].params, Previous(last, calls, n))]
  }

  /** Request ids are consecutive from counter+1, each message carries its
      own call, and each carries the call before it as `lastReq` (the first
      carries whatever `lastReq` held before the run). */
  lemma {:induction false} PostedChain(counter: int, last: Option<RequestInfo>, calls: seq<RequestInfo>, k: nat)
    requires k < |calls|
    ensures PostedFor(counter, last, calls)[k]
      == WorkerOutput(counter + k + 1, calls[k].api, calls[k].params, Previous(last, calls, k))
  {
    var n := |calls| - 1;
    if k < n {
      PostedChain(counter, last, calls[..n], k);
      assert calls[..n][k] == calls[k];
      if k > 0 {
        assert calls[..n][k - 1] == calls[k - 1];
      }
    }
  }

  /** The worker's module-level state. */
  class Worker {
    /** The counter inside `issueRequestId`. */
    var requestCounter: int
    /** The keys of `requests`; entries are never deleted. */
    var requests: set<int>
    var lastReq: Option<RequestInfo>
    /** Messages given to `self.postMessage`. */
    var outbox: seq<WorkerOutput>
    /** Calls of a request's `resolve`, with the response. */
    var resumed: seq<(int, JsValue)>
    /** Scripts invoked, in order. */
    var ran: seq<string>

    constructor ()
      ensures requestCounter == 0 && requests == {} && lastReq == None
      ensures outbox == [] && resumed == [] && ran == []
    {
      requestCounter := 0;
      requests := {};
      lastReq := None;
      outbox := [];
      resumed := [];
      ran := [];
    }

    /** `request(resolve, reject, type, params)`. */
    method Request(api: string, params: JsValue)
      modifies this
      ensures requestCounter == old(requestCounter) + 1
      ensures requests == old(requests) + {requestCounter}
      ensures outbox == old(outbox) + [WorkerOutput(requestCounter, api, params, old(lastReq))]
      ensures lastReq == Some(RequestInfo(api, params))
      ensures resumed == old(resumed) && ran == old(ran)
    {
      requestCounter := requestCounter + 1;
      var requestId := requestCounter;
      requests := requests + {requestId};
      outbox := outbox + [WorkerOutput(requestId, api, params, lastReq)];
      lastReq := Some(RequestInfo(api, params));
    }

    /** The global `getNearestVoxels(types)`. */
    method GetNearestVoxels(types: JsValue)
      modifies this
      ensures outbox == old(outbox) + [WorkerOutput(old(requestCounter) + 1, "getNearestVoxels", types, old(lastReq))]
      ensures lastReq == Some(RequestInfo("getNearestVoxels", types))
      ensures requestCounter == old(requestCounter) + 1 && requests == old(requests) + {requestCounter}
    {
      Request("getNearestVoxels", types);
    }

    /** The global `moveTo(position)`. */
    method MoveTo(position: JsValue)
      modifies this
      ensures outbox == old(outbox) + [WorkerOutput(old(requestCounter) + 1, "moveTo", position, old(lastReq))]
      ensures lastReq == Some(RequestInfo("moveTo", position))
      ensures requestCounter == old(requestCounter) + 1 && requests == old(requests) + {requestCounter}
    {
      Request("moveTo", position);
    }

    /** The global `use()`: it takes no argument, so `params` is undefined. */
    method Use()
      modifies this
      ensures outbox == old(outbox) + [WorkerOutput(old(requestCounter) + 1, "use", Undefined, old(lastReq))]
      ensures lastReq == Some(RequestInfo("use", Undefined))
      ensures requestCounter == old(requestCounter) + 1 && requests == old(requests) + {requestCounter}
    {
      Request("use", Undefined);
    }

    /** `self.onmessage`.  `init` runs the `when_run` list in order (it
        throws when the object has no such list); `resp` resolves a known
        request and throws on an unknown id; anything else is ignored. */
    method OnMessage(input: WorkerInput) returns (r: Result<()>)
      modifies this
      ensures input.Init? ==>
        if "when_run" in input.scripts
        then r.Ok? && ran == old(ran) + input.scripts["when_run"]
        else r.Err? && ran == old(ran)
      ensures input.Resp? ==>
        if input.requestId in old(requests)
        then r.Ok? && resumed == old(resumed) + [(input.requestId, input.response)]
        else r.Err? && resumed == old(resumed)
      ensures input.StopRequest? ==> r.Ok?
      ensures !input.Init? ==> ran == old(ran)
      ensures !input.Resp? ==> resumed == old(resumed)
      ensures requests == old(requests) && requestCounter == old(requestCounter)
      ensures lastReq == old(lastReq) && outbox == old(outbox)
    {
      match input
      case Init(_, scripts) =>
        if "when_run" !in scripts {
          return Err("compiled['when_run'] is not iterable");
        }
        var list := scripts["when_run"];
        var i := 0;
        while i < |list|
          invariant 0 <= i <= |list|
          invariant ran == old(ran) + list[..i]
          invariant resumed == old(resumed)
          invariant requests == old(requests) && requestCounter == old(requestCounter)
          invariant lastReq == old(lastReq) && outbox == old(outbox)
        {
          ran := ran + [list[i]];
          i := i + 1;
        }
        assert list[..i] == list;
        r := Ok(());
      case Resp(requestId, response) =>
        if requestId !in requests {
          return Err("requests.get(requestId) is undefined");
        }
        resumed := resumed + [(requestId, response)];
        r := Ok(());
      case StopRequest =>
        r := Ok(());
    }
  }

  /** Three calls on a fresh worker: ids 1, 2, 3, each message naming the
      call before it. */
  method ThreeCalls(a: JsValue, b: JsValue) returns (posted: seq<WorkerOutput>)
    ensures posted == PostedFor(0, None, [RequestInfo("moveTo", a), RequestInfo("use", Undefined),
                                          RequestInfo("getNearestVoxels", b)])
  {
    var w := new Worker();
    w.MoveTo(a);
    w.Use();
    w.GetNearestVoxels(b);
    posted := w.outbox;
    var calls := [RequestInfo("moveTo", a), RequestInfo("use", Undefined), RequestInfo("getNearestVoxels", b)];
    assert calls[..2] == [RequestInfo("moveTo", a), RequestInfo("use", Undefined)];
    assert calls[..2][..1] == [RequestInfo("moveTo", a)];
    assert calls[..2][..1][..0] == [];
    assert PostedFor(0, None, calls[..2][..1]) == [WorkerOutput(1, "moveTo", a, None)];
    assert PostedFor(0, None, calls[..2]) == [WorkerOutput(1, "moveTo", a, None),
      WorkerOutput(2, "use", Undefined, Some(RequestInfo("moveTo", a)))];
  }
}
