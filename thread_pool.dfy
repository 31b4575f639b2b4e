/** src/vm/ThreadPool.ts: a `Thread` wraps one script worker and re-emits
    its messages; a `ThreadPool` keeps a stack of idle threads that is
    never empty. */
module ThreadPooling {
  import opened Common
  import opened LegacyWorker
  import opened ScriptWorkers

  /** `WM_HEARTBEAT` as imported: shared.ts exports no such name, so the
      binding is undefined at run time. */
  const WM_HEARTBEAT: JsValue := Undefined

  /** The `type` of every event a worker's `message` listener receives. */
  const MESSAGE_EVENT_TYPE: JsValue := Str("message")

  /** Whether `handleWorkerMessage` takes an event of type `eventType` for a
      heartbeat (true) or re-emits its data (false). */
  function IsHeartbeat(eventType: JsValue): (b: bool)
    ensures b <==> eventType == WM_HEARTBEAT
  {
    match eventType
    case Undefined => true
    case _ => false
  }

  /** The `switch (message.type)` of `handleWorkerMessage` never takes the
      heartbeat branch for a real message event: every message is re-emitted. */
  lemma MessageEventsAreReemitted()
    ensures !IsHeartbeat(MESSAGE_EVENT_TYPE)
  {
  }

  class Thread {
    /** `null` once the thread was killed. */
    var worker: ScriptWorker?
    /** Listeners registered on the thread's own event emitter. */
    var listeners: nat
    /** Data passed to `this.emit('message', ...)`, oldest first. */
    var emitted: seq<JsValue>
    var heartbeatArrivedAt: Option<int>

    constructor ()
      ensures worker != null && fresh(worker)
      ensures !worker.listening && worker.onmessage == None && worker.inbox == [] && !worker.terminated
      ensures listeners == 0 && emitted == [] && heartbeatArrivedAt == None
    {
      worker := new ScriptWorker();
      listeners := 0;
      emitted := [];
      heartbeatArrivedAt := None;
    }

    /** `on('message', ...)`, inherited from the event emitter. */
    method On()
      modifies this
      ensures listeners == old(listeners) + 1
      ensures worker == old(worker) && emitted == old(emitted) && heartbeatArrivedAt == old(heartbeatArrivedAt)
    {
      listeners := listeners + 1;
    }

    /** Attaches `handleWorkerMessage` to the worker; it throws once the
        worker is gone. */
    method Start() returns (r: Result<()>)
      modifies worker
      ensures r.Ok? <==> worker != null
      ensures worker != null ==> worker.listening
      ensures worker != null ==> worker.inbox == old(worker.inbox) && worker.terminated == old(worker.terminated)
    {
      if worker == null {
        return Err("this.worker is null");
      }
      worker.listening := true;
      r := Ok(());
    }

    /** Asks the worker to stop, without detaching anything. */
    method Restart() returns (r: Result<()>)
      modifies worker
      ensures r.Ok? <==> worker != null
      ensures worker != null ==> worker.inbox == old(if worker.terminated then worker.inbox else worker.inbox + [StopRequest])
      ensures worker != null ==> worker.listening == old(worker.listening)
    {
      if worker == null {
        return Err("this.worker is null");
      }
      worker.PostMessage(StopRequest);
      r := Ok(());
    }

    /** `handleWorkerMessage`: a heartbeat records its arrival time `now`;
        anything else is re-emitted as it came. */
    method HandleWorkerMessage(eventType: JsValue, data: JsValue, now: int)
      modifies this
      ensures IsHeartbeat(eventType) ==> heartbeatArrivedAt == Some(now) && emitted == old(emitted)
      ensures !IsHeartbeat(eventType) ==>
        heartbeatArrivedAt == old(heartbeatArrivedAt) && emitted == old(emitted) + [data]
      ensures worker == old(worker) && listeners == old(listeners)
    {
      if eventType == WM_HEARTBEAT {
        heartbeatArrivedAt := Some(now);
      } else {
        emitted := emitted + [data];
      }
    }

    /** A message arriving from the worker: it reaches the handler only
        while the handler is attached, and a real event always has type
        "message". */
    method Deliver(data: JsValue, now: int)
      modifies this
      ensures worker != null && worker.listening ==> emitted == old(emitted) + [data]
      ensures !(worker != null && worker.listening) ==> emitted == old(emitted)
      ensures heartbeatArrivedAt == old(heartbeatArrivedAt)
      ensures worker == old(worker) && listeners == old(listeners)
    {
      if worker != null && worker.listening {
        MessageEventsAreReemitted();
        HandleWorkerMessage(MESSAGE_EVENT_TYPE, data, now);
      }
    }

    method PostMessage(message: WorkerInput) returns (r: Result<()>)
      modifies worker
      ensures r.Ok? <==> worker != null
      ensures worker != null ==> worker.inbox == old(if worker.terminated then worker.inbox else worker.inbox + [message])
      ensures worker != null ==> worker.listening == old(worker.listening)
    {
      if worker == null {
        return Err("this.worker is null");
      }
      worker.PostMessage(message);
      r := Ok(());
    }

    /** Drops every listener, detaches the handler and asks the worker to
        stop.  On a killed thread the listeners are already gone when the
        worker access throws. */
    method Stop() returns (r: Result<()>)
      modifies this, worker
      ensures listeners == 0 && worker == old(worker)
      ensures r.Ok? <==> worker != null
      ensures worker != null ==> !worker.listening
      ensures worker != null ==> worker.inbox == old(if worker.terminated then worker.inbox else worker.inbox + [StopRequest])
      ensures worker != null ==> worker.terminated == old(worker.terminated)
      ensures emitted == old(emitted) && heartbeatArrivedAt == old(heartbeatArrivedAt)
    {
      listeners := 0;
      if worker == null {
        return Err("this.worker is null");
      }
      worker.listening := false;
      worker.PostMessage(StopRequest);
      r := Ok(());
    }

    /** Stops the thread, terminates its worker and forgets it. */
    method Kill() returns (r: Result<()>)
      modifies this, worker
      ensures r.Ok? <==> old(worker) != null
      ensures worker == null && listeners == 0
      ensures old(worker) != null ==> old(worker).terminated && !old(worker).listening
    {
      r := Stop();
      if r.Err? {
        return;
      }
      worker.Terminate();
      worker := null;
    }
  }

  /** Killing a thread leaves it unusable: a later stop throws. */
  method KillThenStop(t: Thread) returns (first: Result<()>, second: Result<()>)
    requires t.worker != null
    modifies t, t.worker
    ensures first.Ok? && second.Err?
  {
    first := t.Kill();
    second := t.Stop();
  }

  class ThreadPool {
    /** Idle threads; the last one is handed out next. */
    var idle: seq<Thread>

    ghost predicate Valid()
      reads this
    {
      |idle| >= 1
    }

    constructor ()
      ensures Valid() && |idle| == 1 && fresh(idle[0])
    {
      var t := new Thread();
      idle := [t];
    }

    /** Hands out the most recently idled thread, refilling the stack with a
        new thread when that empties it. */
    method Allocate() returns (thread: Thread)
      requires Valid()
      modifies this
      ensures Valid()
      ensures thread == old(idle[|idle| - 1])
      ensures |old(idle)| > 1 ==> idle == old(idle[..|idle| - 1])
      ensures |old(idle)| == 1 ==> |idle| == 1 && fresh(idle[0])
    {
      thread := idle[|idle| - 1];
      idle := idle[..|idle| - 1];
      if |idle| == 0 {
        var t := new Thread();
        idle := idle + [t];
      }
    }

    /** Stops `thread` and puts it on top of the stack; a killed thread
        throws in `stop` and is not put back. */
    method Free(thread: Thread) returns (r: Result<()>)
      requires Valid()
      modifies this, thread, thread.worker
      ensures Valid()
      ensures r.Ok? <==> thread.worker != null
      ensures thread.worker == old(thread.worker)
      ensures r.Ok? ==> idle == old(idle) + [thread]
      ensures r.Err? ==> idle == old(idle)
      ensures thread.listeners == 0
    {
      r := thread.Stop();
      if r.Err? {
        return;
      }
      idle := idle + [thread];
    }
  }

  /** The pool is last-in, first-out: a freed thread is the next one
      handed out. */
  method FreeThenAllocate(pool: ThreadPool, thread: Thread) returns (next: Thread)
    requires pool.Valid() && thread.worker != null
    modifies pool, thread, thread.worker
    ensures next == thread
  {
    var r := pool.Free(thread);
    next := pool.Allocate();
  }
}
