/** src/vm/shared.ts: the message tags and payload shapes exchanged between
    the main thread and a script worker.  A message on the wire is a plain
    object, modelled as a map from field name to value. */
module Protocol {
  import opened Common

  const WM_STOPPED: string := "WM_STOPPED"
  const MW_STOP: string := "MW_STOP"
  const MW_RUN: string := "MW_RUN"
  const MW_API_RESPONSE: string := "MW_API_RESPONSE"
  const WM_API_REQUEST: string := "WM_API_REQUEST"
  const WM_THREAD_START: string := "WM_THREAD_START"
  const WM_THREAD_STOP: string := "WM_THREAD_STOP"

  /** Messages from the main thread to a worker. */
  datatype MainToWorker =
    | MwStop(objectId: string)
    | MwRun(objectId: string, threadId: int, code: string)
    | MwApiResponse(requestId: int, params: JsValue)

  /** Messages from a worker to the main thread; all extend WmBaseParams. */
  datatype WorkerToMain =
    | WmApiRequest(objectId: string, threadId: int, requestId: int, api: string, body: JsValue)
    | WmThreadStart(objectId: string, threadId: int)
    | WmThreadStop(objectId: string, threadId: int)

  /** A message as the plain object that `postMessage` carries. */
  type Record = map<string, JsValue>

  function MwTag(m: MainToWorker): string
  {
    match m
    case MwStop(_) => MW_STOP
    case MwRun(_, _, _) => MW_RUN
    case MwApiResponse(_, _) => MW_API_RESPONSE
  }

  function WmTag(m: WorkerToMain): string
  {
    match m
    case WmApiRequest(_, _, _, _, _) => WM_API_REQUEST
    case WmThreadStart(_, _) => WM_THREAD_START
    case WmThreadStop(_, _) => WM_THREAD_STOP
  }

  /** The fields the payload interface of each main-to-worker message declares
      (MwStopParams, MwRunParams, MwResponseParams; none of them declares `type`). */
  function MwFields(m: MainToWorker): set<string>
  {
    match m
    case MwStop(_) => {"objectId"}
    case MwRun(_, _, _) => {"objectId", "threadId", "code"}
    case MwApiResponse(_, _) => {"requestId", "params"}
  }

  /** The fields of WmBaseParams, which every worker-to-main payload extends. */
  const WmBaseFields: set<string> := {"type", "objectId", "threadId"}

  function WmFields(m: WorkerToMain): set<string>
  {
    match m
    case WmApiRequest(_, _, _, _, _) => WmBaseFields + {"requestId", "api", "body"}
    case WmThreadStart(_, _) => WmBaseFields
    case WmThreadStop(_, _) => WmBaseFields
  }

  /** The object posted for a main-to-worker message: its payload plus the
      `type` field the worker dispatches on. */
  function EncodeMw(m: MainToWorker): (r: Record)
    ensures r.Keys == MwFields(m) + {"type"}
    ensures r["type"] == Str(MwTag(m))
  {
    match m
    case MwStop(o) => map["type" := Str(MW_STOP), "objectId" := Str(o)]
    case MwRun(o, t, c) => map["type" := Str(MW_RUN), "objectId" := Str(o), "threadId" := Num(t), "code" := Str(c)]
    case MwApiResponse(r, p) => map["type" := Str(MW_API_RESPONSE), "requestId" := Num(r), "params" := p]
  }

  /** How the worker reads a main-to-worker object: by its `type` field,
      then the fields of the matching payload. */
  function DecodeMw(r: Record): Option<MainToWorker>
  {
    if "type" !in r || !r["type"].Str? then None
    else
      var t := r["type"].s;
      if t == MW_RUN then
        if "objectId" in r && r["objectId"].Str? && "threadId" in r && r["threadId"].Num?
           && "code" in r && r["code"].Str?
        then Some(MwRun(r["objectId"].s, r["threadId"].n, r["code"].s))
        else None
      else if t == MW_STOP then
        if "objectId" in r && r["objectId"].Str? then Some(MwStop(r["objectId"].s)) else None
      else if t == MW_API_RESPONSE then
        if "requestId" in r && r["requestId"].Num? && "params" in r
        then Some(MwApiResponse(r["requestId"].n, r["params"]))
        else None
      else None
  }

  function EncodeWm(m: WorkerToMain): (r: Record)
    ensures r.Keys == WmFields(m)
    ensures r["type"] == Str(WmTag(m))
  {
    match m
    case WmApiRequest(o, t, q, a, b) =>
      map["type" := Str(WM_API_REQUEST), "objectId" := Str(o), "threadId" := Num(t),
          "requestId" := Num(q), "api" := Str(a), "body" := b]
    case WmThreadStart(o, t) => map["type" := Str(WM_THREAD_START), "objectId" := Str(o), "threadId" := Num(t)]
    case WmThreadStop(o, t) => map["type" := Str(WM_THREAD_STOP), "objectId" := Str(o), "threadId" := Num(t)]
  }

  function DecodeWm(r: Record): Option<WorkerToMain>
  {
    if "type" !in r || !r["type"].Str? || "objectId" !in r || !r["objectId"].Str?
       || "threadId" !in r || !r["threadId"].Num?
    then None
    else
      var t, o, th := r["type"].s, r["objectId"].s, r["threadId"].n;
      if t == WM_THREAD_START then Some(WmThreadStart(o, th))
      else if t == WM_THREAD_STOP then Some(WmThreadStop(o, th))
      else if t == WM_API_REQUEST then
        if "requestId" in r && r["requestId"].Num? && "api" in r && r["api"].Str? && "body" in r
        then Some(WmApiRequest(o, th, r["requestId"].n, r["api"].s, r["body"]))
        else None
      else None
  }

  /** Every worker-to-main message carries type, objectId and threadId; an
      API request carries requestId, api and body besides. */
  lemma WorkerMessagesCarryBase(m: WorkerToMain)
    ensures WmBaseFields <= EncodeWm(m).Keys
    ensures m.WmApiRequest? ==> EncodeWm(m).Keys == WmBaseFields + {"requestId", "api", "body"}
  {
  }

  /** The run payload is exactly objectId, threadId and code; a stop carries
      only objectId; a response carries requestId and params but no objectId. */
  lemma MainMessageShapes(m: MainToWorker)
    ensures m.MwRun? ==> MwFields(m) == {"objectId", "threadId", "code"}
    ensures m.MwStop? ==> MwFields(m) == {"objectId"}
    ensures m.MwApiResponse? ==> "objectId" !in MwFields(m) && MwFields(m) == {"requestId", "params"}
  {
  }

  /** The worker reads back exactly what the main thread posted. */
  lemma DecodeEncodeMw(m: MainToWorker)
    ensures DecodeMw(EncodeMw(m)) == Some(m)
  {
    var r := EncodeMw(m);
    match m
    case MwStop(o) =>
      assert MW_STOP != MW_RUN;
    case MwRun(o, t, c) =>
    case MwApiResponse(q, p) =>
      assert MW_API_RESPONSE != MW_RUN && MW_API_RESPONSE != MW_STOP;
  }

  /** The main thread reads back exactly what a worker posted. */
  lemma DecodeEncodeWm(m: WorkerToMain)
    ensures DecodeWm(EncodeWm(m)) == Some(m)
  {
    match m
    case WmApiRequest(o, t, q, a, b) =>
      assert WM_API_REQUEST != WM_THREAD_START && WM_API_REQUEST != WM_THREAD_STOP;
    case WmThreadStart(o, t) =>
    case WmThreadStop(o, t) =>
      assert WM_THREAD_STOP != WM_THREAD_START;
  }

  /** An object whose `type` is none of the three main-to-worker tags is
      not read as a message at all. */
  lemma UnknownTagIgnored(r: Record)
    requires "type" in r && r["type"].Str?
    requires r["type"].s != MW_RUN && r["type"].s != MW_STOP && r["type"].s != MW_API_RESPONSE
    ensures DecodeMw(r) == None
  {
  }
}
