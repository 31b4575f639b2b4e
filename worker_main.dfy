/** src/vm/worker/index.ts: the script worker's entry point.  One thread
    manager per worker, ticked every 1000 / VM_FPS milliseconds, and a
    message handler that dispatches on the message's `type`. */
module WorkerMain {
  import opened Common
  import opened Protocol
  import opened ThreadSpec
  import opened ThreadManaging

  const VM_FPS: int := 100

  /** The `setInterval` period of the tick, in milliseconds. */
  const TickIntervalMs: int := 1000 / VM_FPS

  /** `self.onmessage` on the manager's state: run, stop and response
      messages go to spawn, terminate and onResponse; any other object is
      ignored.  The script text of a run message is not modelled. */
  function Dispatch(s: State, data: Record): State
    requires Inv(s)
  {
    match DecodeMw(data)
    case None => s
    case Some(MwRun(o, tid, _)) => Spawn(s, o, tid)
    case Some(MwStop(o)) => Terminate(s, o)
    case Some(MwApiResponse(rid, params)) => OnResponse(s, rid, params)
  }

  lemma DispatchInv(s: State, data: Record)
    requires Inv(s)
    ensures Inv(Dispatch(s, data))
  {
    match DecodeMw(data)
    case None =>
    case Some(MwRun(o, tid, _)) => SpawnSupersedes(s, o, tid);
    case Some(MwStop(o)) => TerminateInv(s, o);
    case Some(MwApiResponse(rid, params)) => OnResponseInv(s, rid, params);
  }

  /** The handler, driving the worker's manager object. */
  method OnMessage(threads: ThreadManager, data: Record)
    requires threads.Valid()
    modifies threads
    ensures threads.Valid()
    ensures threads.Abs() == Dispatch(old(threads.Abs()), data)
  {
    var msg := DecodeMw(data);
    match msg
    case None =>
    case Some(MwRun(objectId, threadId, _)) => threads.Spawn(objectId, threadId);
    case Some(MwStop(objectId)) => threads.Terminate(objectId);
    case Some(MwApiResponse(requestId, params)) => threads.OnResponse(requestId, params);
  }

  /** A run message starts a thread for its object, announced after the
      stop of any thread the object had. */
  lemma RunStartsThread(s: State, o: string, tid: int, code: string)
    requires Inv(s)
    ensures var s' := Dispatch(s, EncodeMw(MwRun(o, tid, code)));
      && o in s'.byObject && s'.byObject[o] == ThreadRec(o, tid, {})
      && s'.outbox[|s'.outbox| - 1] == WmThreadStart(o, tid)
  {
    DecodeEncodeMw(MwRun(o, tid, code));
    SpawnSupersedes(s, o, tid);
  }

  /** A stop message after a run leaves the object without a thread, and
      the worker has announced the start and then the stop of that thread. */
  lemma RunThenStop(s: State, o: string, tid: int, code: string)
    requires Inv(s)
    ensures Inv(Dispatch(s, EncodeMw(MwRun(o, tid, code))))
    ensures var s1 := Dispatch(s, EncodeMw(MwRun(o, tid, code)));
      var s2 := Dispatch(s1, EncodeMw(MwStop(o)));
      && o !in s2.byObject
      && s2.outbox == s1.outbox + [WmThreadStop(o, tid)]
      && s2.outbox[|s2.outbox| - 2..] == [WmThreadStart(o, tid), WmThreadStop(o, tid)]
  {
    DecodeEncodeMw(MwRun(o, tid, code));
    var s1 := Spawn(s, o, tid);
    assert Dispatch(s, EncodeMw(MwRun(o, tid, code))) == s1;
    SpawnSupersedes(s, o, tid);
    DecodeEncodeMw(MwStop(o));
    var s2 := Terminate(s1, o);
    assert Dispatch(s1, EncodeMw(MwStop(o))) == s2;
    TerminateInv(s1, o);
    TerminateEffect(s1, o);
    assert s2.outbox[|s2.outbox| - 2..] == [s1.outbox[|s1.outbox| - 1], WmThreadStop(o, tid)];
  }

  /** A response message resumes exactly the request it names. */
  lemma ResponseResumes(s: State, rid: int, params: JsValue)
    requires Inv(s) && rid in s.pending
    ensures Dispatch(s, EncodeMw(MwApiResponse(rid, params))).resumed == s.resumed + [Resumption(rid, params)]
  {
    DecodeEncodeMw(MwApiResponse(rid, params));
    ResponseResolvesOnce(s, rid, params, params);
  }

  /** The worker ignores an object whose type is not one of its three tags. */
  lemma UnknownMessageIgnored(s: State, data: Record)
    requires Inv(s)
    requires "type" in data && data["type"].Str?
    requires data["type"].s != MW_RUN && data["type"].s != MW_STOP && data["type"].s != MW_API_RESPONSE
    ensures Dispatch(s, data) == s
  {
    UnknownTagIgnored(data);
  }
}
