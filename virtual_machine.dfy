/** src/vm/VirtualMachine.ts: one script worker per object id.  The machine
    starts an object's scripts, relays the worker's requests as events
    tagged with the object id, and passes responses back. */
module VirtualMachines {
  import opened Common
  import opened LegacyWorker
  import opened ScriptWorkers

  /** `{ objectId, requestId, type, params, lastReq }` emitted as `message`. */
  datatype VmEvent = VmEvent(objectId: string, requestId: int, api: string, params: JsValue, lastReq: Option<RequestInfo>)

  /** The event the `onmessage` handler installed for `objectId` emits for
      `data`: tagged with the object id, and losing nothing of the message. */
  function Relay(objectId: string, data: WorkerOutput): (e: VmEvent)
    ensures e.objectId == objectId
    ensures Unrelay(e) == data
  {
    VmEvent(objectId, data.requestId, data.api, data.params, data.lastReq)
  }

  /** The worker's message, as it was posted, is what the event carries
      besides the object id. */
  function Unrelay(e: VmEvent): WorkerOutput
  {
    WorkerOutput(e.requestId, e.api, e.params, e.lastReq)
  }

  class VirtualMachine {
    var workers: map<string, ScriptWorker>
    /** Data passed to `this.emit('message', ...)`, oldest first. */
    var emitted: seq<VmEvent>

    constructor ()
      ensures workers == map[] && emitted == []
    {
      workers := map[];
      emitted := [];
    }

    /** Gives `objectId` a new worker, terminating the one it had. */
    method Spawn(objectId: string) returns (worker: ScriptWorker)
      modifies this, if objectId in workers then {workers[objectId]} else {}
      ensures fresh(worker)
      ensures !worker.listening && worker.onmessage == None && worker.inbox == [] && !worker.terminated
      ensures workers == old(workers)[objectId := worker]
      ensures objectId in old(workers) ==> old(workers[objectId]).terminated
      ensures objectId in old(workers) ==> old(workers[objectId]).inbox == old(workers[objectId].inbox)
      ensures emitted == old(emitted)
    {
      if objectId in workers {
        workers[objectId].Terminate();
      }
      worker := new ScriptWorker();
      workers := workers[objectId := worker];
    }

    /** Installs the relaying handler on the object's worker and sends it
        its scripts; an object without a worker throws. */
    method Execute(objectId: string, scripts: map<string, seq<string>>) returns (r: Result<ScriptWorker>)
      modifies if objectId in workers then {workers[objectId]} else {}
      ensures r.Ok? <==> objectId in workers
      ensures objectId in workers ==>
        && r.value == workers[objectId]
        && r.value.onmessage == Some(objectId)
        && r.value.inbox == old(if r.value.terminated then r.value.inbox else r.value.inbox + [Init(objectId, scripts)])
        && r.value.terminated == old(r.value.terminated)
    {
      if objectId !in workers {
        return Err("this.workers.get(objectId) is undefined");
      }
      var worker := workers[objectId];
      worker.onmessage := Some(objectId);
      worker.PostMessage(Init(objectId, scripts));
      r := Ok(worker);
    }

    /** The worker `w` firing its `onmessage` with `data`. */
    method Deliver(w: ScriptWorker, data: WorkerOutput)
      modifies this
      ensures workers == old(workers)
      ensures w.onmessage.Some? ==> emitted == old(emitted) + [Relay(w.onmessage.value, data)]
      ensures w.onmessage.None? ==> emitted == old(emitted)
    {
      if w.onmessage.Some? {
        emitted := emitted + [Relay(w.onmessage.value, data)];
      }
    }

    /** Sends a response to the object's worker; an object without a worker
        throws. */
    method PostMessage(objectId: string, requestId: int, response: JsValue) returns (r: Result<()>)
      modifies if objectId in workers then {workers[objectId]} else {}
      ensures r.Ok? <==> objectId in workers
      ensures objectId in workers ==>
        var w := workers[objectId];
        w.inbox == old(if w.terminated then w.inbox else w.inbox + [Resp(requestId, response)])
    {
      if objectId !in workers {
        return Err("this.workers.get(objectId) is undefined");
      }
      workers[objectId].PostMessage(Resp(requestId, response));
      r := Ok(());
    }
  }

  /** Spawning an object twice replaces its worker: the first is terminated,
      executing reaches only the second, and the object's events carry its
      id. */
  method RespawnThenExecute(objectId: string, scripts: map<string, seq<string>>, data: WorkerOutput)
    returns (first: ScriptWorker, second: ScriptWorker, events: seq<VmEvent>)
    ensures first != second && first.terminated && !second.terminated
    ensures first.inbox == [] && second.inbox == [Init(objectId, scripts)]
    ensures events == [Relay(objectId, data)]
  {
    var vm := new VirtualMachine();
    first := vm.Spawn(objectId);
    second := vm.Spawn(objectId);
    var r := vm.Execute(objectId, scripts);
    vm.Deliver(second, data);
    events := vm.emitted;
  }
}
