/** The thread bookkeeping of src/vm/worker/ThreadManager.ts as pure
    functions over a state value.  The class in thread_manager.dfy runs the
    source's statements and is proved to compute exactly these functions. */
module ThreadSpec {
  import opened Common
  import opened Protocol

  /** A live thread: the object it drives, its id, and the ids of the host
      requests it is waiting on (the interpreter itself is not modelled). */
  datatype ThreadRec = ThreadRec(objectId: string, threadId: int, pending: set<int>)

  /** An entry of the global request table: the object key the request was
      made for (its resolve/reject continuations are not modelled). */
  datatype PendingRequest = PendingRequest(objectId: string)

  /** A `request.resolve(value)` call: the interpreter resumed with `value`. */
  datatype Resumption = Resumption(requestId: int, value: JsValue)

  /** Everything the manager owns or emits.  The thread list and the
      objectId map share their thread objects, so the list is modelled by
      the objectIds of its threads in insertion order and the records live in
      the map.  `lastRequestId` is the counter of the module-level request id
      issuer; `outbox` is every message given to `self.postMessage`;
      `stepped` lists the objects whose interpreter was stepped, in order. */
  datatype State = State(
    threads: seq<string>,
    byObject: map<string, ThreadRec>,
    pending: map<int, PendingRequest>,
    lastRequestId: int,
    outbox: seq<WorkerToMain>,
    resumed: seq<Resumption>,
    stepped: seq<string>)

  const Empty: State := State([], map[], map[], 0, [], [], [])

  predicate Distinct(xs: seq<string>)
  {
    forall i, j :: 0 <= i < j < |xs| ==> xs[i] != xs[j]
  }

  /** The manager's invariant: one thread per objectId, the list and the map
      hold the same threads, every pending id belongs to exactly the thread
      of the object it was requested for, and every pending id was issued. */
  ghost predicate Inv(s: State)
  {
    Tables(s.threads, s.byObject, s.pending, s.lastRequestId)
  }

  /** Every id a thread waits on is in the request table under that
      thread's object, and every entry of the table is awaited by the thread
      of the object it names. */
  ghost predicate PendingLinked(m: map<string, ThreadRec>, p: map<int, PendingRequest>)
  {
    && (forall o, r :: o in m && r in m[o].pending ==> r in p && p[r].objectId == o)
    && (forall r :: r in p ==> p[r].objectId in m && r in m[p[r].objectId].pending)
  }

  ghost predicate Tables(ts: seq<string>, m: map<string, ThreadRec>, p: map<int, PendingRequest>, last: int)
  {
    && Distinct(ts)
    && (forall i :: 0 <= i < |ts| ==> ts[i] in m)
    && (forall o :: o in m ==> o in ts && m[o].objectId == o)
    && (forall o, r :: o in m && r in m[o].pending ==> r in p && p[r].objectId == o)
    && (forall r :: r in p ==> p[r].objectId in m && r in m[p[r].objectId].pending)
    && (forall r :: r in p ==> r <= last)
    && last >= 0
  }

  /** `Array.prototype.indexOf` on a list that contains `x`. */
  function IndexOf(xs: seq<string>, x: string): (i: nat)
    requires x in xs
    ensures i < |xs| && xs[i] == x
    ensures forall k :: 0 <= k < i ==> xs[k] != x
  {
    if xs[0] == x then 0 else 1 + IndexOf(xs[1..], x)
  }

  /** `Array.prototype.splice(i, 1)`. */
  function RemoveAt(xs: seq<string>, i: nat): seq<string>
    requires i < |xs|
  {
    xs[..i] + xs[i + 1..]
  }

  /** `threadsByObjectId.get(key)`: a Map keyed by objectId strings finds
      nothing for a key of any other type. */
  function Lookup(byObject: map<string, ThreadRec>, key: JsValue): (r: Option<ThreadRec>)
    ensures r.Some? <==> key.Str? && key.s in byObject
    ensures r.Some? ==> r.value == byObject[key.s]
  {
    if key.Str? && key.s in byObject then Some(byObject[key.s]) else None
  }

  /** `destroyThread(thread, index)` for the thread at `index`. */
  function DestroyAt(s: State, i: nat): State
    requires Inv(s) && i < |s.threads|
  {
    var o := s.threads[i];
    var t := s.byObject[o];
    s.(pending := s.pending - t.pending,
       threads := RemoveAt(s.threads, i),
       byObject := s.byObject - {o},
       outbox := s.outbox + [WmThreadStop(o, t.threadId)])
  }

  /** `terminate(objectId)`. */
  function Terminate(s: State, o: string): State
    requires Inv(s)
  {
    if o in s.byObject then DestroyAt(s, IndexOf(s.threads, o)) else s
  }

  /** `spawn(objectId, threadId, code)`: terminate the object's old thread,
      append the new one, map it, announce it. */
  function Spawn(s: State, o: string, tid: int): State
    requires Inv(s)
  {
    var s1 := Terminate(s, o);
    s1.(threads := s1.threads + [o],
        byObject := s1.byObject[o := ThreadRec(o, tid, {})],
        outbox := s1.outbox + [WmThreadStart(o, tid)])
  }

  /** One iteration of the `onTick` loop: step the thread at `j`; destroy it
      if the step reported that its program ended. */
  function StepAt(s: State, j: nat, ok: bool): State
    requires Inv(s) && j < |s.threads|
  {
    var s1 := s.(stepped := s.stepped + [s.threads[j]]);
    if ok then s1 else DestroyAt(s1, j)
  }

  /** The iterations of `onTick` still to run when the index is `i`:
      positions i-1 down to 0.  `results[j]` is what `interpreter.step()`
      returns for the thread that was at position j when the tick began. */
  function TickFrom(s: State, i: nat, results: seq<bool>): State
    requires Inv(s) && i <= |s.threads| && i <= |results|
    decreases i
  {
    if i == 0 then s
    else
      StepAtInv(s, i - 1, results[i - 1]);
      TickFrom(StepAt(s, i - 1, results[i - 1]), i - 1, results)
  }

  /** `onTick()`. */
  function Tick(s: State, results: seq<bool>): State
    requires Inv(s) && |results| == |s.threads|
  {
    TickFrom(s, |s.threads|, results)
  }

  /** `request(objectId, api, params)`: throws when no thread is registered
      for the key; otherwise issues an id, records it in the global table and
      in the thread, and posts the API request.  `params &&
      pseudoToNative(params)` is taken to be `params` itself (the
      interpreter's value conversion is not modelled). */
  function Request(s: State, key: JsValue, api: string, params: JsValue): (State, Result<int>)
    requires Inv(s)
  {
    match Lookup(s.byObject, key)
    case None => (s, Err("Cannot find thread for object"))
    case Some(t) =>
      var rid := s.lastRequestId + 1;
      (s.(lastRequestId := rid,
          pending := s.pending[rid := PendingRequest(key.s)],
          byObject := s.byObject[key.s := t.(pending := t.pending + {rid})],
          outbox := s.outbox + [WmApiRequest(key.s, t.threadId, rid, api, params)]),
       Ok(rid))
  }

  /** `onResponse(requestId, params)`: unknown ids are ignored; a known id
      leaves the global table, then its thread's set, and the thread is
      resumed with the value. */
  function OnResponse(s: State, rid: int, value: JsValue): State
    requires Inv(s)
  {
    if rid !in s.pending then s
    else
      var o := s.pending[rid].objectId;
      var s1 := s.(pending := s.pending - {rid});
      if o !in s1.byObject then s1
      else
        var t := s1.byObject[o];
        s1.(byObject := s1.byObject[o := t.(pending := t.pending - {rid})],
            resumed := s1.resumed + [Resumption(rid, value)])
  }

  // ---------------------------------------------------------------------
  // Reference definitions

  /** The objects whose step returned true, in list order. */
  function Survivors(xs: seq<string>, results: seq<bool>): seq<string>
    requires |xs| <= |results|
  {
    if xs == [] then []
    else Survivors(xs[..|xs| - 1], results) + (if results[|xs| - 1] then [xs[|xs| - 1]] else [])
  }

  function Reverse(xs: seq<string>): seq<string>
  {
    if xs == [] then [] else [xs[|xs| - 1]] + Reverse(xs[..|xs| - 1])
  }

  /** The stop messages for the objects whose step returned false, from the
      last to the first, with the thread ids `m` records for them. */
  function StopsLastToFirst(xs: seq<string>, results: seq<bool>, m: map<string, ThreadRec>): seq<WorkerToMain>
    requires |xs| <= |results|
    requires forall x :: x in xs ==> x in m
  {
    if xs == [] then []
    else
      var o := xs[|xs| - 1];
      (if results[|xs| - 1] then [] else [WmThreadStop(o, m[o].threadId)])
      + StopsLastToFirst(xs[..|xs| - 1], results, m)
  }

  /** The union of the live threads' pending sets. */
  function PendingOf(xs: seq<string>, m: map<string, ThreadRec>): set<int>
    requires forall x :: x in xs ==> x in m
  {
    if xs == [] then {} else PendingOf(xs[..|xs| - 1], m) + m[xs[|xs| - 1]].pending
  }

  // ---------------------------------------------------------------------
  // Lemmas

  lemma RemoveAtFacts(xs: seq<string>, i: nat)
    requires Distinct(xs) && i < |xs|
    ensures Distinct(RemoveAt(xs, i))
    ensures |RemoveAt(xs, i)| == |xs| - 1
    ensures forall x :: x in RemoveAt(xs, i) <==> x in xs && x != xs[i]
  {
    var ys := RemoveAt(xs, i);
    assert forall k :: 0 <= k < i ==> ys[k] == xs[k];
    assert forall k :: i <= k < |ys| ==> ys[k] == xs[k + 1];
    forall a, b | 0 <= a < b < |ys|
      ensures ys[a] != ys[b]
    {
      var a' := if a < i then a else a + 1;
      var b' := if b < i then b else b + 1;
      assert ys[a] == xs[a'] && ys[b] == xs[b'];
    }
    forall x
      ensures x in ys <==> x in xs && x != xs[i]
    {
      if x in xs && x != xs[i] {
        var k :| 0 <= k < |xs| && xs[k] == x;
        if k < i { assert ys[k] == x; } else { assert ys[k - 1] == x; }
      }
    }
  }

  lemma PendingOfMembers(xs: seq<string>, m: map<string, ThreadRec>, r: int)
    requires forall x :: x in xs ==> x in m
    ensures r in PendingOf(xs, m) <==> exists x :: x in xs && r in m[x].pending
  {
    if xs != [] {
      var init := xs[..|xs| - 1];
      PendingOfMembers(init, m, r);
      if exists x :: x in xs && r in m[x].pending {
        var x :| x in xs && r in m[x].pending;
        if x != xs[|xs| - 1] {
          var k :| 0 <= k < |xs| && xs[k] == x;
          assert init[k] == x;
        }
      }
    }
  }

  /** Under the invariant the global request table holds exactly the union
      of the live threads' pending sets, and the pending sets of two
      different threads never share an id. */
  lemma InvTables(s: State)
    requires Inv(s)
    ensures s.pending.Keys == PendingOf(s.threads, s.byObject)
    ensures forall o1, o2 :: o1 in s.byObject && o2 in s.byObject && o1 != o2 ==>
              s.byObject[o1].pending !! s.byObject[o2].pending
  {
    forall r
      ensures r in s.pending <==> r in PendingOf(s.threads, s.byObject)
    {
      PendingOfMembers(s.threads, s.byObject, r);
      if r in s.pending {
        var o := s.pending[r].objectId;
        assert o in s.threads && r in s.byObject[o].pending;
      }
    }
    forall o1, o2 | o1 in s.byObject && o2 in s.byObject && o1 != o2
      ensures s.byObject[o1].pending !! s.byObject[o2].pending
    {
      forall r | r in s.byObject[o1].pending
        ensures r !in s.byObject[o2].pending
      {
        assert s.pending[r].objectId == o1;
      }
    }
  }

  /** Removing one thread from the tables keeps their invariant. */
  lemma TablesRemove(ts: seq<string>, m: map<string, ThreadRec>, p: map<int, PendingRequest>, last: int, i: nat)
    requires Tables(ts, m, p, last) && i < |ts|
    ensures Tables(RemoveAt(ts, i), m - {ts[i]}, p - m[ts[i]].pending, last)
  {
    RemoveAtFacts(ts, i);
    RemoveKeepsList(ts, m, i);
    RemoveKeepsMap(ts, m, i);
    RemoveKeepsPending(m, p, ts[i]);
  }

  lemma RemoveKeepsMap(ts: seq<string>, m: map<string, ThreadRec>, i: nat)
    requires i < |ts|
    requires forall o :: o in m ==> o in ts && m[o].objectId == o
    requires forall x :: x in RemoveAt(ts, i) <==> x in ts && x != ts[i]
    ensures forall o :: o in m - {ts[i]} ==> o in RemoveAt(ts, i) && (m - {ts[i]})[o].objectId == o
  {
  }

  lemma RemoveKeepsList(ts: seq<string>, m: map<string, ThreadRec>, i: nat)
    requires Distinct(ts) && i < |ts|
    requires forall k :: 0 <= k < |ts| ==> ts[k] in m
    requires forall x :: x in RemoveAt(ts, i) <==> x in ts && x != ts[i]
    ensures forall k :: 0 <= k < |RemoveAt(ts, i)| ==> RemoveAt(ts, i)[k] in m - {ts[i]}
  {
    var ts' := RemoveAt(ts, i);
    forall k | 0 <= k < |ts'|
      ensures ts'[k] in m - {ts[i]}
    {
      assert ts'[k] in ts';
    }
  }

  lemma RemoveKeepsPending(m: map<string, ThreadRec>, p: map<int, PendingRequest>, o: string)
    requires o in m && PendingLinked(m, p)
    ensures PendingLinked(m - {o}, p - m[o].pending)
  {
    var m', p' := m - {o}, p - m[o].pending;
    forall x, r | x in m' && r in m'[x].pending
      ensures r in p' && p'[r].objectId == x
    {
      assert p[r].objectId == x;
    }
    forall r | r in p'
      ensures p'[r].objectId in m' && r in m'[p'[r].objectId].pending
    {
      assert r !in m[o].pending;
    }
  }

  /** `destroyThread` keeps the invariant; it removes exactly that thread
      and exactly its pending ids. */
  lemma DestroyAtInv(s: State, i: nat)
    requires Inv(s) && i < |s.threads|
    ensures Inv(DestroyAt(s, i))
    ensures DestroyAt(s, i).threads == RemoveAt(s.threads, i)
    ensures |DestroyAt(s, i).threads| == |s.threads| - 1
    ensures s.threads[i] !in DestroyAt(s, i).byObject
  {
    TablesRemove(s.threads, s.byObject, s.pending, s.lastRequestId, i);
  }

  lemma StepAtInv(s: State, j: nat, ok: bool)
    requires Inv(s) && j < |s.threads|
    ensures Inv(StepAt(s, j, ok))
    ensures StepAt(s, j, ok).threads == if ok then s.threads else RemoveAt(s.threads, j)
    ensures StepAt(s, j, ok).threads[..j] == s.threads[..j]
    ensures StepAt(s, j, ok).threads[j..] == (if ok then [s.threads[j]] else []) + s.threads[j + 1..]
    ensures StepAt(s, j, ok).stepped == s.stepped + [s.threads[j]]
    ensures StepAt(s, j, ok).outbox ==
      s.outbox + (if ok then [] else [WmThreadStop(s.threads[j], s.byObject[s.threads[j]].threadId)])
    ensures forall x :: x in s.threads[..j] ==>
              x in StepAt(s, j, ok).byObject && StepAt(s, j, ok).byObject[x] == s.byObject[x]
  {
    var s1 := s.(stepped := s.stepped + [s.threads[j]]);
    assert Inv(s1);
    if !ok {
      DestroyAtInv(s1, j);
      forall x | x in s.threads[..j]
        ensures x != s.threads[j]
      {
        var k :| 0 <= k < j && s.threads[..j][k] == x;
      }
    }
  }

  lemma TerminateInv(s: State, o: string)
    requires Inv(s)
    ensures Inv(Terminate(s, o))
    ensures o !in Terminate(s, o).byObject
  {
    if o in s.byObject {
      DestroyAtInv(s, IndexOf(s.threads, o));
    }
  }

  /** `terminate` on an object without a thread changes nothing and posts
      nothing; on an object with a thread it removes exactly that thread,
      drops exactly its pending ids and posts its stop message. */
  lemma TerminateEffect(s: State, o: string)
    requires Inv(s)
    ensures o !in s.byObject ==> Terminate(s, o) == s
    ensures o in s.byObject ==>
      && (forall x :: x in Terminate(s, o).threads <==> x in s.threads && x != o)
      && Terminate(s, o).pending.Keys == s.pending.Keys - s.byObject[o].pending
      && Terminate(s, o).outbox == s.outbox + [WmThreadStop(o, s.byObject[o].threadId)]
  {
    if o in s.byObject {
      RemoveAtFacts(s.threads, IndexOf(s.threads, o));
    }
  }

  /** Appending a fresh thread with nothing pending keeps the invariant. */
  lemma TablesAppend(ts: seq<string>, m: map<string, ThreadRec>, p: map<int, PendingRequest>, last: int, o: string, tid: int)
    requires Tables(ts, m, p, last) && o !in m
    ensures Tables(ts + [o], m[o := ThreadRec(o, tid, {})], p, last)
    ensures forall k :: 0 <= k < |ts| ==> ts[k] != o
  {
    forall k | 0 <= k < |ts|
      ensures ts[k] != o
    {
      assert ts[k] in m;
    }
    var ts' := ts + [o];
    forall a, b | 0 <= a < b < |ts'|
      ensures ts'[a] != ts'[b]
    {
      if b < |ts| {
        assert ts'[a] == ts[a] && ts'[b] == ts[b];
      } else {
        assert ts'[a] == ts[a];
      }
    }
  }

  /** After `spawn` the object has exactly one live thread: the new one, at
      the end of the list, with nothing pending.  Any earlier thread of the
      object was stopped first, so its stop message precedes the start. */
  lemma SpawnSupersedes(s: State, o: string, tid: int)
    requires Inv(s)
    ensures Inv(Spawn(s, o, tid))
    ensures var s' := Spawn(s, o, tid);
      && |s'.threads| > 0 && s'.threads[|s'.threads| - 1] == o
      && (forall k :: 0 <= k < |s'.threads| - 1 ==> s'.threads[k] != o)
      && s'.byObject[o] == ThreadRec(o, tid, {})
      && s'.outbox == s.outbox
           + (if o in s.byObject then [WmThreadStop(o, s.byObject[o].threadId)] else [])
           + [WmThreadStart(o, tid)]
  {
    TerminateInv(s, o);
    TerminateEffect(s, o);
    var s1 := Terminate(s, o);
    TablesAppend(s1.threads, s1.byObject, s1.pending, s1.lastRequestId, o, tid);
  }

  /** Recording a freshly issued id under an existing thread keeps the
      invariant. */
  lemma TablesAdd(ts: seq<string>, m: map<string, ThreadRec>, p: map<int, PendingRequest>, last: int, o: string)
    requires Tables(ts, m, p, last) && o in m
    ensures last + 1 !in p
    ensures Tables(ts, m[o := m[o].(pending := m[o].pending + {last + 1})], p[last + 1 := PendingRequest(o)], last + 1)
  {
    var rid := last + 1;
    var m', p' := m[o := m[o].(pending := m[o].pending + {rid})], p[rid := PendingRequest(o)];
    forall x, r | x in m' && r in m'[x].pending
      ensures r in p' && p'[r].objectId == x
    {
      if r != rid {
        assert r in m[x].pending;
      }
    }
  }

  /** Dropping an answered id from the table and from its thread keeps the
      invariant. */
  lemma TablesResolve(ts: seq<string>, m: map<string, ThreadRec>, p: map<int, PendingRequest>, last: int, rid: int)
    requires Tables(ts, m, p, last) && rid in p
    ensures var o := p[rid].objectId;
      Tables(ts, m[o := m[o].(pending := m[o].pending - {rid})], p - {rid}, last)
  {
    var o := p[rid].objectId;
    var m', p' := m[o := m[o].(pending := m[o].pending - {rid})], p - {rid};
    forall x, r | x in m' && r in m'[x].pending
      ensures r in p' && p'[r].objectId == x
    {
      assert r in m[x].pending;
    }
  }

  /** A successful `request` issues the next id, which was not pending, and
      records it under the requesting thread; a failed one changes nothing. */
  lemma RequestEffect(s: State, key: JsValue, api: string, params: JsValue)
    requires Inv(s)
    ensures var (s', res) := Request(s, key, api, params);
      && Inv(s')
      && (res.Err? <==> !(key.Str? && key.s in s.byObject))
      && (res.Err? ==> s' == s)
      && (res.Ok? ==>
            && res.value == s.lastRequestId + 1
            && res.value !in s.pending
            && s'.pending == s.pending[res.value := PendingRequest(key.s)]
            && s'.threads == s.threads
            && s'.byObject[key.s].pending == s.byObject[key.s].pending + {res.value}
            && s'.byObject[key.s].threadId == s.byObject[key.s].threadId
            && s'.byObject.Keys == s.byObject.Keys
            && (forall o :: o in s.byObject && o != key.s ==> s'.byObject[o] == s.byObject[o])
            && s'.resumed == s.resumed
            && s'.outbox == s.outbox
                 + [WmApiRequest(key.s, s.byObject[key.s].threadId, res.value, api, params)])
  {
    if key.Str? && key.s in s.byObject {
      var o, t, rid := key.s, s.byObject[key.s], s.lastRequestId + 1;
      TablesAdd(s.threads, s.byObject, s.pending, s.lastRequestId, o);
      assert Request(s, key, api, params) ==
        (s.(lastRequestId := rid,
            pending := s.pending[rid := PendingRequest(o)],
            byObject := s.byObject[o := t.(pending := t.pending + {rid})],
            outbox := s.outbox + [WmApiRequest(o, t.threadId, rid, api, params)]),
         Ok(rid));
    }
  }

  /** `onResponse` keeps the invariant. */
  lemma OnResponseInv(s: State, rid: int, value: JsValue)
    requires Inv(s)
    ensures Inv(OnResponse(s, rid, value))
    ensures OnResponse(s, rid, value).threads == s.threads
  {
    if rid in s.pending {
      TablesResolve(s.threads, s.byObject, s.pending, s.lastRequestId, rid);
    }
  }

  /** A response for an id that is not pending (never issued, already
      answered, or dropped with its thread) is a no-op. */
  lemma ResponseUnknownIgnored(s: State, rid: int, value: JsValue)
    requires Inv(s) && rid !in s.pending
    ensures OnResponse(s, rid, value) == s
  {
  }

  /** A pending id is resolved once: the request leaves both tables, its
      thread is resumed with the value, and a second response for the same
      id does nothing. */
  lemma ResponseResolvesOnce(s: State, rid: int, v: JsValue, v2: JsValue)
    requires Inv(s) && rid in s.pending
    ensures Inv(OnResponse(s, rid, v))
    ensures var s' := OnResponse(s, rid, v);
      && rid !in s'.pending
      && s'.pending == s.pending - {rid}
      && s'.resumed == s.resumed + [Resumption(rid, v)]
      && s'.byObject[s.pending[rid].objectId].pending == s.byObject[s.pending[rid].objectId].pending - {rid}
      && OnResponse(s', rid, v2) == s'
  {
    OnResponseInv(s, rid, v);
  }

  /** Response correlation: the id a request returns, answered, resumes the
      requesting thread with the answer and restores both tables. */
  lemma RequestThenResponse(s: State, o: string, api: string, params: JsValue, v: JsValue)
    requires Inv(s) && o in s.byObject
    ensures Request(s, Str(o), api, params).1 == Ok(s.lastRequestId + 1)
    ensures Inv(Request(s, Str(o), api, params).0)
    ensures var s2 := OnResponse(Request(s, Str(o), api, params).0, s.lastRequestId + 1, v);
      && s2.resumed == s.resumed + [Resumption(s.lastRequestId + 1, v)]
      && s2.pending == s.pending
      && s2.byObject == s.byObject
  {
    var rid := s.lastRequestId + 1;
    RequestEffect(s, Str(o), api, params);
    var s1 := Request(s, Str(o), api, params).0;
    ResponseResolvesOnce(s1, rid, v, v);
    assert s.pending[rid := PendingRequest(o)] - {rid} == s.pending;
    assert rid !in s.byObject[o].pending;
    assert s.byObject[o].pending + {rid} - {rid} == s.byObject[o].pending;
  }

  /** Stale-response immunity: once the requesting object's thread has been
      terminated, a response for its request resumes nothing. */
  lemma ResponseAfterTerminateIgnored(s: State, o: string, api: string, params: JsValue, v: JsValue)
    requires Inv(s) && o in s.byObject
    ensures Request(s, Str(o), api, params).1.Ok?
    ensures Inv(Request(s, Str(o), api, params).0)
    ensures Inv(Terminate(Request(s, Str(o), api, params).0, o))
    ensures var (s1, res) := Request(s, Str(o), api, params);
      var s2 := Terminate(s1, o);
      OnResponse(s2, res.value, v) == s2
  {
    RequestEffect(s, Str(o), api, params);
    var (s1, res) := Request(s, Str(o), api, params);
    TerminateInv(s1, o);
    TerminateEffect(s1, o);
  }

  // ---------------------------------------------------------------------
  // The tick

  lemma {:induction false} StopsSameMap(xs: seq<string>, results: seq<bool>, m1: map<string, ThreadRec>, m2: map<string, ThreadRec>)
    requires |xs| <= |results|
    requires forall x :: x in xs ==> x in m1 && x in m2 && m1[x] == m2[x]
    ensures StopsLastToFirst(xs, results, m1) == StopsLastToFirst(xs, results, m2)
  {
    if xs != [] {
      StopsSameMap(xs[..|xs| - 1], results, m1, m2);
    }
  }

  /** One more position of a prefix, for each reference definition. */
  lemma PrefixSnoc(xs: seq<string>, results: seq<bool>, m: map<string, ThreadRec>, i: nat)
    requires 0 < i <= |xs| && i <= |results|
    requires forall x :: x in xs ==> x in m
    ensures Reverse(xs[..i]) == [xs[i - 1]] + Reverse(xs[..i - 1])
    ensures Survivors(xs[..i], results) ==
              Survivors(xs[..i - 1], results) + (if results[i - 1] then [xs[i - 1]] else [])
    ensures StopsLastToFirst(xs[..i], results, m) ==
              (if results[i - 1] then [] else [WmThreadStop(xs[i - 1], m[xs[i - 1]].threadId)])
              + StopsLastToFirst(xs[..i - 1], results, m)
  {
    assert xs[..i][..i - 1] == xs[..i - 1];
  }

  lemma AppendAssoc<T>(a: seq<T>, b: seq<T>, c: seq<T>)
    ensures a + b + c == a + (b + c)
  {
  }

  lemma {:induction false} TickFromThreads(s: State, i: nat, results: seq<bool>)
    requires Inv(s) && i <= |s.threads| && i <= |results|
    ensures Inv(TickFrom(s, i, results))
    ensures TickFrom(s, i, results).threads == Survivors(s.threads[..i], results) + s.threads[i..]
    decreases i
  {
    if i == 0 {
      assert s.threads[..0] == [];
    } else {
      var j := i - 1;
      StepAtInv(s, j, results[j]);
      var s1 := StepAt(s, j, results[j]);
      TickFromThreads(s1, j, results);
      PrefixSnoc(s.threads, results, s.byObject, i);
      AppendAssoc(Survivors(s.threads[..j], results), if results[j] then [s.threads[j]] else [], s.threads[i..]);
    }
  }

  lemma {:induction false} TickFromStepped(s: State, i: nat, results: seq<bool>)
    requires Inv(s) && i <= |s.threads| && i <= |results|
    ensures TickFrom(s, i, results).stepped == s.stepped + Reverse(s.threads[..i])
    decreases i
  {
    if i == 0 {
      assert s.threads[..0] == [];
    } else {
      var j := i - 1;
      StepAtInv(s, j, results[j]);
      var s1 := StepAt(s, j, results[j]);
      TickFromStepped(s1, j, results);
      PrefixSnoc(s.threads, results, s.byObject, i);
      AppendAssoc(s.stepped, [s.threads[j]], Reverse(s.threads[..j]));
    }
  }

  lemma {:induction false} TickFromOutbox(s: State, i: nat, results: seq<bool>)
    requires Inv(s) && i <= |s.threads| && i <= |results|
    ensures TickFrom(s, i, results).outbox == s.outbox + StopsLastToFirst(s.threads[..i], results, s.byObject)
    decreases i
  {
    if i == 0 {
      assert s.threads[..0] == [];
    } else {
      var j := i - 1;
      StepAtInv(s, j, results[j]);
      var s1 := StepAt(s, j, results[j]);
      TickFromOutbox(s1, j, results);
      StopsSameMap(s.threads[..j], results, s1.byObject, s.byObject);
      PrefixSnoc(s.threads, results, s.byObject, i);
      AppendAssoc(s.outbox, if results[j] then [] else [WmThreadStop(s.threads[j], s.byObject[s.threads[j]].threadId)],
        StopsLastToFirst(s.threads[..j], results, s.byObject));
    }
  }

  /** `onTick` steps every live thread exactly once, from the last inserted
      to the first, keeps exactly those whose step returned true (in their
      order), posts a stop for each of the others, and keeps the invariant. */
  lemma TickSteps(s: State, results: seq<bool>)
    requires Inv(s) && |results| == |s.threads|
    ensures Inv(Tick(s, results))
    ensures Tick(s, results).threads == Survivors(s.threads, results)
    ensures Tick(s, results).stepped == s.stepped + Reverse(s.threads)
    ensures Tick(s, results).outbox == s.outbox + StopsLastToFirst(s.threads, results, s.byObject)
  {
    TickFromThreads(s, |s.threads|, results);
    TickFromStepped(s, |s.threads|, results);
    TickFromOutbox(s, |s.threads|, results);
    assert s.threads[..|s.threads|] == s.threads;
  }

  /** The stepping order: position k of the log holds the thread at
      position |xs|-1-k. */
  lemma {:induction false} ReverseAt(xs: seq<string>, k: nat)
    requires k < |xs|
    ensures |Reverse(xs)| == |xs|
    ensures Reverse(xs)[k] == xs[|xs| - 1 - k]
  {
    if k > 0 {
      ReverseAt(xs[..|xs| - 1], k - 1);
    } else if |xs| > 1 {
      ReverseAt(xs[..|xs| - 1], 0);
    } else {
      assert Reverse(xs[..0]) == [];
    }
  }

  /** The empty manager satisfies the invariant. */
  lemma EmptyInv()
    ensures Inv(Empty)
  {
  }
}
