/** The browser `Worker` object that `new ScriptWorker()` creates, as seen
    from the main thread: what has been posted to it, which handlers are
    attached, and whether it was terminated.  The script running inside it
    is LegacyWorker. */
module ScriptWorkers {
  import opened Common
  import opened LegacyWorker

  class ScriptWorker {
    /** A `message` listener added with `addEventListener` is attached. */
    var listening: bool
    /** The `onmessage` property: the object id the handler relays under. */
    var onmessage: Option<string>
    /** Messages accepted by `postMessage`, oldest first. */
    var inbox: seq<WorkerInput>
    var terminated: bool

    constructor ()
      ensures !listening && onmessage == None && inbox == [] && !terminated
    {
      listening := false;
      onmessage := None;
      inbox := [];
      terminated := false;
    }

    /** A terminated worker drops what it is sent. */
    method PostMessage(m: WorkerInput)
      modifies this
      ensures inbox == if old(terminated) then old(inbox) else old(inbox) + [m]
      ensures listening == old(listening) && onmessage == old(onmessage) && terminated == old(terminated)
    {
      if !terminated {
        inbox := inbox + [m];
      }
    }

    method Terminate()
      modifies this
      ensures terminated
      ensures listening == old(listening) && onmessage == old(onmessage) && inbox == old(inbox)
    {
      terminated := true;
    }
  }
}
