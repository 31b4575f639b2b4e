/** src/vm/worker/api.ts: the host functions installed into every thread's
    interpreter.  Each one forwards its argument to the thread manager's
    `request` under the object key the binding was created with. */
module HostApi {
  import opened Common
  import opened ThreadSpec

  /** The global functions a script can call, in installation order. */
  const HostFunctions: seq<string> := ["getNearestVoxels", "moveTo", "use", "jump"]

  /** What `setProperty(scope, name, ...)` installs: a host function that
      requests `api` for the object `key`. */
  datatype HostBinding = HostBinding(key: JsValue, api: string)

  /** An interpreter's global scope, reduced to its host-function slots. */
  class Scope {
    var props: map<string, HostBinding>

    constructor ()
      ensures props == map[]
    {
      props := map[];
    }
  }

  /** The function `createInitInterpreter(threads, key)` returns, applied to
      a scope: installs the four host functions, each bound to `key`. */
  method InitInterpreter(scope: Scope, key: JsValue)
    modifies scope
    ensures scope.props.Keys == old(scope.props.Keys) + set n | n in HostFunctions
    ensures forall n :: n in HostFunctions ==> scope.props[n] == HostBinding(key, n)
    ensures forall n :: n in old(scope.props) && n !in HostFunctions ==> scope.props[n] == old(scope.props[n])
  {
    scope.props := scope.props["getNearestVoxels" := HostBinding(key, "getNearestVoxels")];
    scope.props := scope.props["moveTo" := HostBinding(key, "moveTo")];
    scope.props := scope.props["use" := HostBinding(key, "use")];
    scope.props := scope.props["jump" := HostBinding(key, "jump")];
  }

  /** The value a host function passes as `params`: its one argument, except
      `jump`, which takes none and so passes undefined. */
  function ForwardedParams(api: string, arg: JsValue): (p: JsValue)
    ensures api == "jump" ==> p == Undefined
    ensures api != "jump" ==> p == arg
  {
    if api == "jump" then Undefined else arg
  }

  /** A script calling a host function with `arg`: `threads.request(key,
      api, params)` on the manager's state. */
  function CallHost(s: State, b: HostBinding, arg: JsValue): (State, Result<int>)
    requires Inv(s)
  {
    Request(s, b.key, b.api, ForwardedParams(b.api, arg))
  }

  /** The key ThreadManager.spawn binds as written: it calls
      `createInitInterpreter(this, threadId, objectId)`, so the declared
      second parameter `objectId` receives the numeric thread id. */
  function AsWrittenBindingKey(objectId: string, threadId: int): JsValue
  {
    Num(threadId)
  }

  /** The key the binding is evidently meant to carry: the object id. */
  function BindingKey(objectId: string, threadId: int): JsValue
  {
    Str(objectId)
  }

  /** As written, every host call of a freshly spawned thread throws
      "Cannot find thread": the map is keyed by objectId strings and the
      binding carries a number, so the lookup never matches and the state is
      left unchanged. */
  lemma AsWrittenHostCallsThrow(s: State, objectId: string, threadId: int, api: string, arg: JsValue)
    requires Inv(s)
    ensures Inv(Spawn(s, objectId, threadId))
    ensures var s1 := Spawn(s, objectId, threadId);
      CallHost(s1, HostBinding(AsWrittenBindingKey(objectId, threadId), api), arg)
        == (s1, Err("Cannot find thread for object"))
  {
    SpawnSupersedes(s, objectId, threadId);
  }

  /** With the object key, a host call of a freshly spawned thread issues
      the next request id and posts an API request that names the object,
      the thread and the forwarded argument. */
  lemma HostCallReachesSpawnedThread(s: State, objectId: string, threadId: int, api: string, arg: JsValue)
    requires Inv(s)
    ensures Inv(Spawn(s, objectId, threadId))
    ensures var s1 := Spawn(s, objectId, threadId);
      var (s2, res) := CallHost(s1, HostBinding(BindingKey(objectId, threadId), api), arg);
      && res == Ok(s.lastRequestId + 1)
      && s2.outbox == s1.outbox
           + [Protocol.WmApiRequest(objectId, threadId, s.lastRequestId + 1, api, ForwardedParams(api, arg))]
      && s2.byObject[objectId].pending == {s.lastRequestId + 1}
  {
    SpawnSupersedes(s, objectId, threadId);
    var s1 := Spawn(s, objectId, threadId);
    RequestEffect(s1, Str(objectId), api, ForwardedParams(api, arg));
  }

  /** Every installed function forwards to its own API name under the
      scope's key. */
  method InitThenCall(key: JsValue) returns (apis: seq<string>)
    ensures apis == HostFunctions
  {
    var scope := new Scope();
    InitInterpreter(scope, key);
    apis := [scope.props["getNearestVoxels"].api, scope.props["moveTo"].api,
             scope.props["use"].api, scope.props["jump"].api];
  }
}
