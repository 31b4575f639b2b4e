# build-a-farm, modelled in Dafny

build-a-farm is a browser voxel game in which the player teaches farm
characters what to do by snapping Blockly blocks together.  The blocks
compile to scripts; a script virtual machine runs each object's scripts in
a web worker, where a thread manager keeps one interpreter thread per
object and turns the scripts' host calls (`getNearestVoxels`, `moveTo`,
`use`, `jump`) into numbered requests to the main thread.  On the main
thread the game owns characters, each driven by a behaviour (the tutorial
helper, a scripted worker, an elevator), a small finite-state machine of
camera modes (top-down, the transition into first person, first person
with voxel focus), a map service answering nearest-voxel and path
queries, and chunked voxel storage whose chunks pack the navigation mesh
into GPU buffers.

This project models that core:

- the virtual machine side: id issuing, the worker message protocol, the
  thread tables and their invariant, the thread manager's `request`,
  `resolve`, `run`, `stop` and tick, the worker entry point, the thread
  pool's stack of idle threads, the older one-worker-per-object machine
  and its worker script;
- the Blockly code generators as functions from block fields to script
  text;
- the generic state machine and the camera-mode machine with its three
  modes, including the first-person focus and click handling;
- characters, their command queue and walking, and the helper, worker and
  elevator behaviours as state machines driven by ticks and by the end of
  each walk;
- the map service (nearest voxel by a row-major scan, flat indices,
  navigation-mesh lookup and path smoothing) and the game's chunk
  bookkeeping, including the layout of the nav-mesh vertex buffers.

Mutable objects of the source are classes whose methods state their whole
new state; pure helpers are functions; everything the source computes with
third-party code (the JavaScript interpreter, the A* finder, the
nav-mesher, string pulling, ray casts against the scene) enters the model
as a function parameter.

## Model

| member | source | states |
|---|---|---|
| IdIssuing.IdIssuer.constructor | src/vm/IdIssuer.ts:4-6 | a new issuer's counter is 0 |
| IdIssuing.IdIssuer.Issue | src/vm/IdIssuer.ts:8-10 | each call answers the previous counter plus 1 and leaves the counter at that value |
| IdIssuing.IssuedAt | src/vm/IdIssuer.ts:4-10 | after `start` calls, the k-th further call answers start + k + 1 |
| IdIssuing.IssuedStrictlyIncreasing | src/vm/IdIssuer.ts:4-10 | issued values are positive and strictly increasing, so one issuer never answers the same value twice |
| IdIssuing.FirstTwoIssues | src/vm/IdIssuer.ts:4-10 | a fresh issuer answers 1 and then 2 |
| Protocol.EncodeMw | src/vm/shared.ts:12-28 | the object posted to a worker has exactly its payload interface's fields plus `type`, and `type` is the message's tag |
| Protocol.EncodeWm | src/vm/shared.ts:1-8 | the object a worker posts has exactly its payload's fields, and `type` is the message's tag |
| Protocol.WorkerMessagesCarryBase | src/vm/shared.ts:5-8 | every worker-to-main message carries `type`, `objectId` and `threadId`; an API request carries exactly those plus `requestId`, `api` and `body` |
| Protocol.MainMessageShapes | src/vm/shared.ts:12-28 | a run carries exactly `objectId`, `threadId` and `code`; a stop only `objectId`; a response `requestId` and `params` and no `objectId` |
| Protocol.DecodeEncodeMw | src/vm/shared.ts:12-28 | a worker reading a posted main-to-worker object by its `type` recovers the message |
| Protocol.DecodeEncodeWm | src/vm/shared.ts:30-43 | the main thread reading a posted worker-to-main object by its `type` recovers the message |
| Protocol.UnknownTagIgnored | src/vm/shared.ts:12-28 | an object whose `type` is none of the three main-to-worker tags is read as no message |
| HostApi.InitInterpreter | src/vm/worker/api.ts:5-21 | installs exactly the four names `getNearestVoxels`, `moveTo`, `use`, `jump`, each bound to the binding's key and to its own name as the API; other scope entries are kept |
| HostApi.ForwardedParams | src/vm/worker/api.ts:6-20 | `jump` forwards no params (undefined); the other three forward their one argument unchanged |
| HostApi.AsWrittenHostCallsThrow | src/vm/worker/api.ts:4-7 | with the key as written (the thread id), every host call of a freshly spawned thread fails with "Cannot find thread" and changes nothing |
| HostApi.HostCallReachesSpawnedThread | src/vm/worker/api.ts:4-7 | with the object id as key, a host call of a freshly spawned thread issues the next request id, records it as the thread's only pending request and posts an API request naming object, thread, API and argument |
| HostApi.InitThenCall | src/vm/worker/api.ts:5-21 | the four installed functions request, in order, the APIs named after them |
| WorkerMain.DispatchInv | src/vm/worker/index.ts:16-34 | handling any message keeps the thread manager's table invariant |
| WorkerMain.OnMessage | src/vm/worker/index.ts:16-34 | the handler drives the worker's one manager exactly as the dispatch function says and keeps it valid |
| WorkerMain.RunStartsThread | src/vm/worker/index.ts:18-21 | a run message leaves its object mapped to a new thread record with no pending requests, and the last message posted is that thread's start |
| WorkerMain.RunThenStop | src/vm/worker/index.ts:23-26 | a stop after a run leaves the object without a thread and posts the thread's stop |
| WorkerMain.ResponseResumes | src/vm/worker/index.ts:28-31 | a response message resumes exactly the request it names, with its params |
| WorkerMain.UnknownMessageIgnored | src/vm/worker/index.ts:16-34 | a message of any other type leaves the state unchanged |
| ThreadSpec.IndexOf | src/vm/worker/ThreadManager.ts:63 | `indexOf` answers the first position holding the thread |
| ThreadSpec.Lookup | src/vm/worker/ThreadManager.ts:77 | the map finds a thread only for a string key under which an object is registered, and then answers that object's thread |
| ThreadSpec.RemoveAtFacts | src/vm/worker/ThreadManager.ts:117 | `splice(i, 1)` on a list without repeats leaves a list without repeats, one shorter, holding every other element and not the removed one |
| ThreadSpec.PendingOfMembers | src/vm/worker/ThreadManager.ts:18 | an id is pending for some live thread exactly when one of the live threads' sets holds it |
| ThreadSpec.InvTables | src/vm/worker/ThreadManager.ts:48-49 | under the invariant the global table's ids are exactly the union of the live threads' pending sets, and distinct threads' sets are disjoint |
| ThreadSpec.TablesRemove | src/vm/worker/ThreadManager.ts:111-118 | removing one thread, its map entry and its pending ids keeps the tables' invariant |
| ThreadSpec.RemoveKeepsMap | src/vm/worker/ThreadManager.ts:117-118 | after the removal every mapped object is still in the list under its own id |
| ThreadSpec.RemoveKeepsList | src/vm/worker/ThreadManager.ts:117-118 | after the removal every listed object is still mapped |
| ThreadSpec.RemoveKeepsPending | src/vm/worker/ThreadManager.ts:112-114 | after dropping the thread's ids every remaining table entry names a live thread that holds it, and back |
| ThreadSpec.DestroyAtInv | src/vm/worker/ThreadManager.ts:111-127 | `destroyThread` keeps the invariant, removes exactly the thread at that position from the list and its object from the map |
| ThreadSpec.StepAtInv | src/vm/worker/ThreadManager.ts:69-72 | one loop pass logs the step of the thread at j; a thread whose step answered false is removed with its stop posted; positions before j and their threads are untouched |
| ThreadSpec.TerminateInv | src/vm/worker/ThreadManager.ts:60-65 | `terminate` keeps the invariant and leaves the object without a thread |
| ThreadSpec.TerminateEffect | src/vm/worker/ThreadManager.ts:60-65 | on an object without a thread `terminate` changes nothing and posts nothing; otherwise it removes exactly that thread, drops exactly its pending ids and posts its stop |
| ThreadSpec.TablesAppend | src/vm/worker/ThreadManager.ts:42-49 | appending a fresh thread with nothing pending, for an object without one, keeps the tables' invariant |
| ThreadSpec.SpawnSupersedes | src/vm/worker/ThreadManager.ts:39-58 | after `spawn` the object has exactly one live thread, the new one, last in the list, with nothing pending; the old thread's stop (if any) is posted before the new start |
| ThreadSpec.TablesAdd | src/vm/worker/ThreadManager.ts:81-84 | the freshly issued id was not pending, and recording it in both tables keeps their invariant |
| ThreadSpec.TablesResolve | src/vm/worker/ThreadManager.ts:101-106 | dropping an answered id from the global table and from its thread keeps the invariant |
| ThreadSpec.RequestEffect | src/vm/worker/ThreadManager.ts:76-95 | `request` fails, changing nothing, exactly when no thread is registered under the key; otherwise it issues the next id, records it in both tables and posts an API request with object, thread, id, API and params, leaving every other object's entry, the registered objects and the resumptions as they were |
| ThreadSpec.OnResponseInv | src/vm/worker/ThreadManager.ts:97-109 | `onResponse` keeps the invariant and never changes the thread list |
| ThreadSpec.ResponseUnknownIgnored | src/vm/worker/ThreadManager.ts:98-99 | a response for an id that is not pending is a no-op |
| ThreadSpec.ResponseResolvesOnce | src/vm/worker/ThreadManager.ts:97-109 | a pending id leaves both tables, its request is resolved once with the value, and a second response for it does nothing |
| ThreadSpec.RequestThenResponse | src/vm/worker/ThreadManager.ts:76-109 | the id a request answers, when responded to, resumes that request with the response and restores both tables |
| ThreadSpec.ResponseAfterTerminateIgnored | src/vm/worker/ThreadManager.ts:97-104 | after the requesting object's thread is terminated, a response to its request resumes nothing |
| ThreadSpec.StopsSameMap | src/vm/worker/ThreadManager.ts:120-126 | the stop messages of a tick depend only on the map entries of the listed threads |
| ThreadSpec.PrefixSnoc | src/vm/worker/ThreadManager.ts:68 | extending the visited prefix by one thread extends the reverse order, the survivors and the stops by that thread |
| ThreadSpec.TickFromThreads | src/vm/worker/ThreadManager.ts:67-74 | the iterations of `onTick` still to run from index i keep the invariant and leave the survivors of the first i threads followed by the rest |
| ThreadSpec.TickFromStepped | src/vm/worker/ThreadManager.ts:67-74 | the remaining iterations step the first i threads from last to first |
| ThreadSpec.TickFromOutbox | src/vm/worker/ThreadManager.ts:67-74 | the remaining iterations post one stop per failed thread, from last to first |
| ThreadSpec.TickSteps | src/vm/worker/ThreadManager.ts:67-74 | `onTick` steps every live thread exactly once, from the last inserted to the first, keeps exactly the threads whose step answered true, posts a stop for each other one, and keeps the invariant |
| ThreadSpec.ReverseAt | src/vm/worker/ThreadManager.ts:68 | position k of the stepping log holds the thread at position |threads| - 1 - k |
| ThreadSpec.EmptyInv | src/vm/worker/ThreadManager.ts:33-37 | a new manager's empty tables satisfy the invariant |
| ThreadManaging.ThreadManager.constructor | src/vm/worker/ThreadManager.ts:33-37 | a new manager has no threads and no pending requests, posted and resumed nothing, and is valid |
| ThreadManaging.ThreadManager.Spawn | src/vm/worker/ThreadManager.ts:39-58 | the fields, read as a state, become exactly `Spawn` of the old state |
| ThreadManaging.ThreadManager.Terminate | src/vm/worker/ThreadManager.ts:60-65 | the fields become exactly `Terminate` of the old state |
| ThreadManaging.ThreadManager.OnTick | src/vm/worker/ThreadManager.ts:67-74 | the loop from the last thread to the first leaves exactly `Tick` of the old state |
| ThreadManaging.ThreadManager.StepThread | src/vm/worker/ThreadManager.ts:69-72 | one loop body leaves exactly `StepAt` of the old state |
| ThreadManaging.ThreadManager.Request | src/vm/worker/ThreadManager.ts:76-95 | answers and leaves exactly what `Request` says of the old state |
| ThreadManaging.ThreadManager.OnResponse | src/vm/worker/ThreadManager.ts:97-109 | leaves exactly `OnResponse` of the old state |
| ThreadManaging.ThreadManager.DestroyThread | src/vm/worker/ThreadManager.ts:111-127 | leaves exactly `DestroyAt` of the old state |
| ThreadManaging.DeleteAll | src/vm/worker/ThreadManager.ts:112-114 | the loop leaves the table without exactly the thread's ids |
| ScriptWorkers.ScriptWorker.constructor | src/vm/ThreadPool.ts:20 | a new worker has no listener or handler, has been sent nothing and is not terminated |
| ScriptWorkers.ScriptWorker.PostMessage | src/vm/ThreadPool.ts:53 | a live worker queues the message after those already sent; a terminated one drops it |
| ScriptWorkers.ScriptWorker.Terminate | src/vm/ThreadPool.ts:67 | the worker is terminated and keeps everything else |
| ThreadPooling.IsHeartbeat | src/vm/ThreadPool.ts:41-42 | the heartbeat branch is taken exactly for an event whose own type equals the imported `WM_HEARTBEAT` |
| ThreadPooling.MessageEventsAreReemitted | src/vm/ThreadPool.ts:3-8 | `WM_HEARTBEAT` is not exported by shared.ts, so it is undefined and a `message` event never takes the heartbeat branch |
| ThreadPooling.Thread.constructor | src/vm/ThreadPool.ts:17-21 | a new thread owns a fresh idle worker, has no listeners and has emitted nothing |
| ThreadPooling.Thread.On | src/vm/ThreadPool.ts:12 | a listener registration adds one listener and changes nothing else |
| ThreadPooling.Thread.Start | src/vm/ThreadPool.ts:23-33 | the handler is attached to the worker; a killed thread throws |
| ThreadPooling.Thread.Restart | src/vm/ThreadPool.ts:35-38 | the worker is sent a stop request and nothing is detached; a killed thread throws |
| ThreadPooling.Thread.HandleWorkerMessage | src/vm/ThreadPool.ts:40-50 | a heartbeat records its arrival time; every other event re-emits its data as `message` |
| ThreadPooling.Thread.Deliver | src/vm/ThreadPool.ts:40-50 | a worker message is re-emitted exactly when the handler is attached, and the heartbeat time never changes |
| ThreadPooling.Thread.PostMessage | src/vm/ThreadPool.ts:52-54 | the message is passed to the worker; a killed thread throws |
| ThreadPooling.Thread.Stop | src/vm/ThreadPool.ts:56-63 | all listeners are dropped, the handler is detached and the worker is sent a stop request; a killed thread throws |
| ThreadPooling.Thread.Kill | src/vm/ThreadPool.ts:65-69 | the thread is stopped, its worker terminated and forgotten; killing a killed thread throws |
| ThreadPooling.KillThenStop | src/vm/ThreadPool.ts:56-69 | stopping a killed thread throws |
| ThreadPooling.ThreadPool.constructor | src/vm/ThreadPool.ts:77-79 | a new pool holds exactly one fresh idle thread |
| ThreadPooling.ThreadPool.Allocate | src/vm/ThreadPool.ts:81-85 | answers the last idle thread and pops it; when that empties the stack a fresh thread is pushed, so the stack is never empty |
| ThreadPooling.ThreadPool.Free | src/vm/ThreadPool.ts:87-90 | the thread is stopped and then pushed on top of the stack; a killed thread throws before it is pushed |
| ThreadPooling.FreeThenAllocate | src/vm/ThreadPool.ts:81-90 | the pool is last in, first out: allocating right after freeing a thread answers that thread |
| VirtualMachines.Relay | src/vm/VirtualMachine.ts:33-39 | the relayed event carries the object id of the handler's worker and every field of the worker's message, which reads back unchanged |
| VirtualMachines.VirtualMachine.constructor | src/vm/VirtualMachine.ts:14-17 | a new machine has no workers and has emitted nothing |
| VirtualMachines.VirtualMachine.Spawn | src/vm/VirtualMachine.ts:19-28 | the object gets a fresh worker, which is answered; an earlier worker of the object is terminated; other entries are kept |
| VirtualMachines.VirtualMachine.Execute | src/vm/VirtualMachine.ts:30-44 | an object without a worker throws; otherwise its worker relays under the object id and is sent `init` with the scripts |
| VirtualMachines.VirtualMachine.Deliver | src/vm/VirtualMachine.ts:33-39 | a worker with the handler installed emits the relayed message; one without emits nothing |
| VirtualMachines.VirtualMachine.PostMessage | src/vm/VirtualMachine.ts:46-49 | the object's worker is sent `resp` with the id and response; an object without a worker throws |
| VirtualMachines.RespawnThenExecute | src/vm/VirtualMachine.ts:19-44 | spawning an object twice terminates the first worker, `execute` reaches only the second, and its events carry the object id |
| LegacyWorker.PostedFor | src/vm/worker.ts:61-67 | a run of host calls posts one message per call |
| LegacyWorker.PostedChain | src/vm/worker.ts:53-67 | request ids run consecutively from the counter plus 1, each message carries its own call, and its `lastReq` is the call before it (the first carries what `lastReq` held) |
| LegacyWorker.Worker.constructor | src/vm/worker.ts:53-59 | the counter starts at 0, `lastReq` is null and no request is stored |
| LegacyWorker.Worker.Request | src/vm/worker.ts:61-67 | issues the next id, stores it, posts id, type, params and the old `lastReq`, then remembers this call as `lastReq` |
| LegacyWorker.Worker.GetNearestVoxels | src/vm/worker.ts:69-71 | posts a `getNearestVoxels` request with its argument as params |
| LegacyWorker.Worker.MoveTo | src/vm/worker.ts:73-75 | posts a `moveTo` request with its argument as params |
| LegacyWorker.Worker.Use | src/vm/worker.ts:77-79 | posts a `use` request with no params |
| LegacyWorker.Worker.OnMessage | src/vm/worker.ts:22-51 | `init` runs the `when_run` scripts in order and throws when there is none; `resp` resolves a stored request and throws on an unknown id; entries are never removed; other types do nothing |
| LegacyWorker.ThreeCalls | src/vm/worker.ts:53-79 | three calls on a fresh worker post ids 1, 2, 3, each naming the call before it |
| BlockGenerators.FirstIndex | src/blockly/blocks.ts:86-104 | the answer, when present, is the position of the first occurrence of the character; absent exactly when the character does not occur (used to read a generated call back) |
| BlockGenerators.FirstIndexAfter | src/blockly/blocks.ts:86-104 | in `name(rest` with no parenthesis in the name, the first parenthesis sits right after the name |
| BlockGenerators.ParseCallOfCall | src/blockly/blocks.ts:86-104 | every generated `name(arg);` statement reads back as the pair (name, arg) |
| BlockGenerators.WhenRun | src/blockly/blocks.ts:50 | the "when run" hat block generates no code |
| BlockGenerators.Move | src/blockly/blocks.ts:83-105 | an empty distance or a direction outside forward/back/left/right yields no code; otherwise one call to the move function of that direction with the distance as argument |
| BlockGenerators.MoveRoundTrip | src/blockly/blocks.ts:83-105 | the generated move statement reads back as the direction's function name and the distance |
| BlockGenerators.MoveTo | src/blockly/blocks.ts:125-130 | the code is empty exactly when the position input is empty |
| BlockGenerators.MoveToRoundTrip | src/blockly/blocks.ts:125-130 | a non-empty position generates a `moveTo` call whose argument is that position |
| BlockGenerators.Use | src/blockly/blocks.ts:176-181 | the code is empty exactly when the position input is empty |
| BlockGenerators.UseRoundTrip | src/blockly/blocks.ts:176-181 | a non-empty position generates a `use` call whose argument is that position |
| BlockGenerators.JumpRoundTrip | src/blockly/blocks.ts:199-201 | the jump block generates a `jump` call with no argument |
| BlockGenerators.Forever | src/blockly/blocks.ts:222-226 | the loop wrapper adds exactly the 17 characters of `while (true) {\n` and `}\n` around the body |
| BlockGenerators.ForeverRoundTrip | src/blockly/blocks.ts:222-226 | the body of the generated endless loop is exactly the statement code of the DO input |
| BlockGenerators.Decimal | src/blockly/blocks.ts:143-146 | a block id is written as a non-empty digit string with no comma |
| BlockGenerators.ParseDecimalOfDecimal | src/blockly/blocks.ts:143-146 | reading a written id back gives the same number |
| BlockGenerators.SplitThrough | src/blockly/blocks.ts:143-146 | splitting on commas passes over a comma-free piece by adding it to the current field |
| BlockGenerators.SplitJoinCons | src/blockly/blocks.ts:143-146 | splitting a comma-joined list of two or more ids yields the first id's digits followed by the split of the rest |
| BlockGenerators.SplitJoin | src/blockly/blocks.ts:143-146 | splitting `ids.join(',')` on commas gives one field per id, each field the id's digits |
| BlockGenerators.ParseJoinIds | src/blockly/blocks.ts:143-146 | reading back a comma-joined non-empty id list gives the same list |
| BlockGenerators.NearestVoxel | src/blockly/blocks.ts:154-157 | the expression has no operator precedence (ORDER_NONE) and wraps the joined ids in the 20 characters of `getNearestVoxels([` and `])` |
| BlockGenerators.NearestVoxelRoundTrip | src/blockly/blocks.ts:154-157 | the ids inside a generated `getNearestVoxels([...])` expression are exactly the ids the block was given |
| BlockGenerators.DropdownChoicesRoundTrip | src/blockly/blocks.ts:142-147 | for each of the four dropdown choices (water 6, farmland 7, growing crop 8-14, grown crop 15) the generated expression carries exactly that choice's ids |
| Fsms.TransitionKeepsTrace | src/fsm/index.ts:4-8 | a transition fails exactly when no state is current; otherwise the old state's onLeave is recorded before the new state's onEnter with the parameters, the new state becomes current, earlier hooks are kept and the leave/enter alternation is preserved |
| Fsms.Fsm.constructor | src/fsm/index.ts:1-2 | a new machine has the given current state and no hook calls yet |
| Fsms.Fsm.TransitionTo | src/fsm/index.ts:4-8 | the machine's new state is the abstract transition of its old state; on the throwing path nothing changes |
| Fsms.State.constructor | src/fsm/index.ts:14-16 | a state keeps the machine it was built with |
| Fsms.State.TransitionTo | src/fsm/index.ts:21-23 | a state's transition has exactly the effect of the machine's transition with the same arguments |
| ModeFsms.RegisterOverwrites | src/game/modes/ModeFsm.ts:26-28 | registering binds the name to the mode, leaves every other name's binding and the current mode and hooks unchanged |
| ModeFsms.TransitionEffect | src/game/modes/ModeFsm.ts:30-37 | a transition succeeds exactly when the name is registered; then the registered mode becomes current, the previous mode (if any) is left before the new one is entered with the parameters, and the hook trace stays well formed |
| ModeFsms.RegisterThenTransition | src/game/modes/ModeFsm.ts:26-37 | a transition to a name just registered succeeds and enters the mode registered last under it |
| ModeFsms.ModeFsm.constructor | src/game/modes/ModeFsm.ts:22-24 | a new mode machine has an empty registry, no current mode and no hook calls |
| ModeFsms.ModeFsm.Register | src/game/modes/ModeFsm.ts:26-28 | the machine's new state is the abstract registration of its old state |
| ModeFsms.ModeFsm.TransitionTo | src/game/modes/ModeFsm.ts:30-37 | reports an error exactly when the name is not registered, leaving the machine unchanged; otherwise the new state is the abstract transition of the old |
| ModeFsms.ModeState.constructor | src/game/modes/ModeFsm.ts:3-5 | a mode keeps the machine it was built with |
| ModeFsms.ModeState.TransitionTo | src/game/modes/ModeFsm.ts:7-9 | a mode's transition has exactly the effect of its machine's transition with the same arguments |
| ToFpsModes.Opacity | src/game/modes/ToFpsMode.ts:59-61 | while the elapsed time is within the 500 ms fade the editor opacity lies in [0, 1], and it reaches 0 exactly when the full duration has elapsed |
| ToFpsModes.OpacityFades | src/game/modes/ToFpsMode.ts:59-61 | more elapsed time never gives a more opaque editor |
| ToFpsModes.RequestPersists | src/game/modes/ToFpsMode.ts:70-76 | with non-negative ticks the accumulated time never decreases, so once a tick has asked for the first-person mode every later tick asks again |
| ToFpsModes.ToFpsMode.constructor | src/game/modes/ToFpsMode.ts:36-45 | a new mode has no accumulated time, no request for the first-person mode and an open editor |
| ToFpsModes.ToFpsMode.OnEnter | src/game/modes/ToFpsMode.ts:47-52 | entering copies the given view matrix and resets the accumulated time, nothing else |
| ToFpsModes.ToFpsMode.OnRender | src/game/modes/ToFpsMode.ts:59-68 | the intended frame: the editor opacity becomes one minus the fade progress and no other state changes (as written the frame throws; see Findings) |
| ToFpsModes.ToFpsMode.OnTick | src/game/modes/ToFpsMode.ts:70-76 | the intended tick: it adds its duration to the accumulated time and asks for the first-person mode exactly when the total exceeds 500 ms (as written that request throws; see Findings) |
| ToFpsModes.ToFpsMode.OnRenderAsWritten | src/game/modes/ToFpsMode.ts:59-68 | as written, the frame sets the editor opacity and then throws on `this.fsm.states`, which ModeFsm does not have |
| ToFpsModes.ToFpsMode.OnTickAsWritten | src/game/modes/ToFpsMode.ts:70-76 | as written, the time accumulates and a tick past 500 ms throws instead of asking for the first-person mode; no request is ever made |
| ToFpsModes.AsWrittenFadeThrows | src/game/modes/ToFpsMode.ts:47-76 | as written, the first frame after entering throws and so does the tick past 500 ms, and the first-person mode is never asked for |
| ToFpsModes.IntendedFadeAsksForFps | src/game/modes/ToFpsMode.ts:47-76 | as intended, the first frame after entering shows the editor fully opaque and the tick past 500 ms asks for the first-person mode once |
| ToFpsModes.ToFpsMode.OnLeave | src/game/modes/ToFpsMode.ts:78-80 | leaving closes the code editor and changes nothing else |
| TransitionModes.Progress | src/game/modes/TransitionMode.ts:72 | progress never exceeds 1, is non-negative for non-negative time, and is 1 exactly when at least 500 ms have accumulated |
| TransitionModes.ProgressMonotone | src/game/modes/TransitionMode.ts:72 | progress never goes back as time accumulates |
| TransitionModes.TransitionMode.constructor | src/game/modes/TransitionMode.ts:33-42 | a new transition is disabled with zero time, no callback calls and no frames drawn |
| TransitionModes.TransitionMode.Start | src/game/modes/TransitionMode.ts:44-57 | starting releases both pointer locks, stores target, starting view and callback, stamps the start time and enables the mode, without resetting the accumulated time |
| TransitionModes.TransitionMode.OnRender | src/game/modes/TransitionMode.ts:64-88 | a disabled mode does nothing; an enabled one adds the time since the last frame, sets the editor opacity to the progress, and either finishes (disables itself and calls the callback with true, drawing nothing) when progress reaches 1 or draws one frame |
| TransitionModes.RenderPastEnd | src/game/modes/TransitionMode.ts:44-88 | after a start from zero, frames at 200, 600 and 900 ms call the callback exactly once and leave the mode disabled |
| TransitionModes.SecondStartFinishesAtOnce | src/game/modes/TransitionMode.ts:44-57 | because start keeps the accumulated time, a second transition finishes on its very first frame without drawing |
| FpsModes.FilteredVkey | src/game/modes/FpsMode/FpsMode.tsx:108-114 | the outer angle brackets are dropped only when the name both starts with `<` and ends with `>`; the result has the same length as what remains, no whitespace, every whitespace character replaced by `-` and every other character kept |
| FpsModes.KeyNames | src/game/modes/FpsMode/FpsMode.tsx:108-114 | the bound key names come out as the shell expects: `W` stays, `<up>` becomes `up`, `<mouse 1>` becomes `mouse-1`, `<space>` becomes `space` |
| FpsModes.BindKeys | src/game/modes/FpsMode/FpsMode.tsx:117-122 | one bind call per table entry, in order, binding the action name to the cleaned-up key name |
| FpsModes.FocusUnique | src/game/modes/FpsMode/FpsMode.tsx:235-253 | the focus the frame must choose is determined uniquely by the candidates |
| FpsModes.SelectFocus | src/game/modes/FpsMode/FpsMode.tsx:235-253 | the chosen object, if any, is not the player, is hit by the ray, is within the ray distance and no eligible object is closer; among equally close ones the last wins; none is chosen exactly when nothing is eligible |
| FpsModes.FpsMode.constructor | src/game/modes/FpsMode/FpsMode.tsx:91-105 | a new mode has nothing focused, no events and no focus-label calls |
| FpsModes.FpsMode.OnEnter | src/game/modes/FpsMode/FpsMode.tsx:188-202 | entering takes both pointer locks, clears the focus, hides the focus label, starts listening for clicks, registers `handleCode` once more for the player's `code` event and announces `enter` |
| FpsModes.FpsMode.OnLeave | src/game/modes/FpsMode/FpsMode.tsx:392-398 | leaving hides the focus label, stops listening for clicks, announces `leave` and unregisters one `handleCode` from the player's `code` event, keeping the focus |
| FpsModes.EnterThenLeave | src/game/modes/FpsMode/FpsMode.tsx:188-398 | entering and then leaving restores the player's `code` registrations and stops the click listening, so `handleCode` is wired only while the mode is current |
| FpsModes.FpsMode.HandleClick | src/game/modes/FpsMode/FpsMode.tsx:204-212 | only the main button acts: a focused object hears `used` from the player, else a focused voxel is used by the player, else nothing is emitted |
| FpsModes.FpsMode.HandleCode | src/game/modes/FpsMode/FpsMode.tsx:214-220 | as intended, the target hears `codeready` before the transition mode is requested with the target and the view (as written the request throws; see Findings) |
| FpsModes.FpsMode.HandleCodeAsWritten | src/game/modes/FpsMode/FpsMode.tsx:214-220 | as written, the target hears `codeready` and then the handler throws on `this.fsm.states`, asking for no transition |
| FpsModes.FpsMode.OnRender | src/game/modes/FpsMode/FpsMode.tsx:227-277 | the new focus is the one focus selection chooses; the label is touched only when the focus changes (shown and named, or hidden); a focused object clears the focused voxel, otherwise the voxel is the floor of the hit point moved half a normal back, or none without a hit |
| FpsModes.Flip | src/game/modes/FpsMode/FpsMode.tsx:160-164 | a flipped cell exchanges its first two corner indices and keeps the rest |
| FpsModes.FlipInvolution | src/game/modes/FpsMode/FpsMode.tsx:160-164 | flipping a cell twice gives it back |
| FpsModes.FlipCells | src/game/modes/FpsMode/FpsMode.tsx:160-164 | every cell of the box edge is flipped in place, each exactly once |
| BaseBehaviors.StageOfValue | src/game/behaviors/HelperBehavior.ts:32-55 | the quest-progress dispatch recognises exactly the four stage values, each as its own stage, and any other stored number selects no case |
| BaseBehaviors.BaseBehavior.constructor | src/game/behaviors/BaseBehavior.ts:9-13 | a new behaviour owns its character and holds no lock |
| BaseBehaviors.BaseBehavior.Lock | src/game/behaviors/BaseBehavior.ts:15-19 | the lock is taken (true) exactly when it was free; afterwards it is held either way and no other lock changes |
| BaseBehaviors.BaseBehavior.Unlock | src/game/behaviors/BaseBehavior.ts:21-23 | the key is released and every other lock stays as it was |
| BaseBehaviors.BaseBehavior.SendMessage | src/game/behaviors/BaseBehavior.ts:25-27 | the target emits one `message` event with this behaviour's character as sender, and nothing else about the target changes |
| BaseBehaviors.LocksAreIndependent | src/game/behaviors/BaseBehavior.ts:15-19 | a held lock cannot be taken again, while a lock under a different key still can |
| BaseBehaviors.UnlockIsIdempotent | src/game/behaviors/BaseBehavior.ts:15-23 | unlocking twice is unlocking once, and a released lock can be taken again |
| Characters.PropsReadBack | src/game/Character.ts:57-79 | an unset property reads as false or 0; a set one reads back the stored value; setting one key leaves every other key's reading unchanged |
| Characters.Said | src/game/behaviors/BaseBehavior.ts:25-27 | a conversation is one `message` event per line, in order, each with the speaker as sender |
| Characters.SaidAppend | src/game/behaviors/BaseBehavior.ts:25-27 | saying two runs of lines in turn emits the events of the first run followed by those of the second |
| Characters.Character.constructor | src/game/Character.ts:38-55 | a new character has its name and position, the shared default behaviour, three empty property stores and exactly one listener, the `used` forwarder |
| Characters.Character.SetPropsB | src/game/Character.ts:61-63 | only the boolean store changes, at that key, and reading it back gives the value |
| Characters.Character.SetPropBT | src/game/Character.ts:69-71 | only the second boolean store changes, at that key, and reading it back gives the value |
| Characters.Character.SetPropN | src/game/Character.ts:77-79 | only the numeric store changes, at that key, and reading it back gives the value |
| Characters.Character.SetBehavior | src/game/Character.ts:81-83 | the behaviour is replaced and nothing else changes |
| Characters.Character.OnTick | src/game/Character.ts:85-87 | the tick is forwarded once to the current behaviour and nothing else changes |
| Characters.Character.Used | src/game/Character.ts:54 | a `used` event is forwarded once to the behaviour current when it arrives, with the sender |
| Characters.Character.On | src/game/Character.ts:90-99 | registering adds one listener registration for the event and changes nothing else |
| Characters.Character.RemoveListener | src/game/Character.ts:90-99 | removing takes away one registration of that listener for the event, if there is one, and changes nothing else |
| Characters.Character.Emit | src/game/Character.ts:90-99 | emitting appends the event to what the character has emitted and changes nothing else |
| Characters.Character.Command | src/game/Character.ts:27 | a command to the body is appended to the body's commands and changes nothing else |
| Characters.SwitchBehavior | src/game/Character.ts:81-87 | a tick before `setBehavior(b)` goes to the old behaviour and one after it to `b` |
| Characters.StoresAreSeparate | src/game/Character.ts:31-33 | the three stores are separate: a numeric property leaves both boolean readings under the same key unchanged |
| NearestVoxels.NearestIsUnique | src/game/ndops/searchForNearestVoxel.ts:3-25 | the cell the scan settles on is determined uniquely: nearest, and first in scan order among the equally near |
| NearestVoxels.Visit | src/game/ndops/searchForNearestVoxel.ts:8-20 | visiting one cell keeps the scan's record correct: a matching cell strictly closer than the best so far (or the first match) becomes the best, ties keep the earlier one |
| NearestVoxels.Search | src/game/ndops/searchForNearestVoxel.ts:27-57 | the answer is the value and coordinates of the nearest matching cell (first in scan order on ties); null exactly when nothing matches or the nearest match holds the falsy id 0 |
| MapServices.SizeCovers | src/game/MapService.ts:29-35 | the ground's size in chunks holds every chunk on every axis, and each axis is 0 or one past some chunk's position |
| MapServices.StackedChunksOverwrite | src/game/MapService.ts:41-50 | of two chunks stacked at the same column, only the slab of the later one is seen in the ground |
| MapServices.AssignSlab | src/game/MapService.ts:42-49 | one chunk's bottom slab is copied into its 32 × 32 block of the ground and every other cell is untouched |
| MapServices.BuildGround | src/game/MapService.ts:29-50 | the ground is 32 cells per chunk on x and z, and each cell holds the slab value of the last chunk covering it, or 0 when none does |
| MapServices.BuildGrid | src/game/MapService.ts:52-57 | the grid has the ground's shape and a cell is walkable exactly when it does not hold water |
| MapServices.Waypoints | src/game/MapService.ts:72 | one waypoint per A* cell, in order, at the start's height |
| MapServices.NeighboursAtDistanceOne | src/game/MapService.ts:104-106 | each of the four candidate cells around a water cell is at squared distance 1 from it |
| MapServices.MapService.constructor | src/game/MapService.ts:26-60 | the ground is sized by the chunks and holds each cell's covering slab value; the grid marks exactly the water cells unwalkable; no block has been written |
| MapServices.MapService.FlatCell | src/game/MapService.ts:99-107 | a buffer offset names a cell of the ground, so an out-of-row neighbour read lands in a real cell or in none |
| MapServices.MapService.FindWalkableAdjacent | src/game/MapService.ts:98-120 | the cell itself unless it holds water; else the first of the four neighbours (z-1, z+1, x-1, x+1) that does not read as water; none when all do |
| MapServices.MapService.FindPath | src/game/MapService.ts:62-76 | fails exactly when the target has no walkable cell next to it; otherwise the path is the A* cells toward that cell at the start's height, followed by the target itself |
| MapServices.MapService.SetBlock | src/game/MapService.ts:78-81 | the write is forwarded to the game and the ground cell the buffer addresses takes the id as a Uint32; no other cell changes |
| MapServices.MapService.SearchForNearestVoxel | src/game/MapService.ts:83-96 | only one or seven ids run a search, any other count answers null; an answer is the nearest cell holding one of the ids |
| MapServices.FlatCellInGround | src/game/MapService.ts:99 | an in-range pair addresses its own cell and reads its value |
| MapServices.EdgeReadWraps | src/game/MapService.ts:104-107 | at the z = 0 edge the neighbour (x, z-1) reads the last cell of the previous row |
| MapServices.FirstNotWaterFinds | src/game/MapService.ts:104-118 | no candidate is chosen exactly when all read as water; otherwise the chosen one is the first that does not |
| MapServices.WalkableAdjacentCases | src/game/MapService.ts:98-120 | a walkable cell is kept; a water cell yields the first neighbour that is not water |
| MapServices.PathToNearest | src/game/behaviors/HelperBehavior.ts:140-152 | a walk can be planned exactly when the search answers a voxel (one or seven ids, the nearest match, not id 0) and a walkable cell lies next to it; the path is then the finder's cells toward that cell followed by the voxel, at the walker's height, so it ends at the nearest matching voxel; otherwise it throws |
| MapServices.PlannedWalkEndsAtNearest | src/game/behaviors/HelperBehavior.ts:145-148 | every planned walk ends at the voxel nearest to the walker with one of the ids, at the walker's height |
| HelperBehaviors.WalkEndsWithHint | src/game/behaviors/HelperBehavior.ts:61-98 | an introduced step says only its hint, a first-time step says its introduction lines, and a progress value that is no stage says nothing |
| HelperBehaviors.HelperBehavior.constructor | src/game/behaviors/HelperBehavior.ts:21-26 | a new helper keeps its character, the player and the map, is not walking and holds no lock |
| HelperBehaviors.HelperBehavior.OnTick | src/game/behaviors/HelperBehavior.ts:28-30 | the helper turns to the player's position exactly when it is not walking, and emits nothing |
| HelperBehaviors.HelperBehavior.OnUsed | src/game/behaviors/HelperBehavior.ts:32-55 | a use while the lock is held does nothing; otherwise the step for the source's quest progress runs: at INIT and WATER_FOUND the introduction lines and a walk that starts exactly when one can be planned to the nearest water or farmland, along the planned route (or the jump and hint once introduced), at SPROUT_FOUND the wheat listener once and two lines, at WHEAT_FOUND four lines, at any other value nothing; the lock is released except while a walk is pending or after a walk that could not start |
| HelperBehaviors.HelperBehavior.Step | src/game/behaviors/HelperBehavior.ts:35-52 | the quest-progress dispatch under the lock, with the same per-stage effects as a use, including a walk that starts exactly when it can be planned |
| HelperBehaviors.HelperBehavior.Talk | src/game/behaviors/HelperBehavior.ts:44-54 | the steps without a walk say their lines, register the wheat listener only at SPROUT_FOUND and only when absent, and release the lock |
| HelperBehaviors.HelperBehavior.IntroduceWater | src/game/behaviors/HelperBehavior.ts:61-74 | until the water flag is set, two lines then a walk that starts exactly when one to the nearest water can be planned, along that route; once set, a jump and the water hint, and the lock goes |
| HelperBehaviors.HelperBehavior.IntroduceSprout | src/game/behaviors/HelperBehavior.ts:87-98 | until the sprout flag is set, one line then a walk that starts exactly when one to the nearest farmland can be planned, along that route; once set, a jump and the dirt hint, and the lock goes |
| HelperBehaviors.HelperBehavior.BeginWalk | src/game/behaviors/HelperBehavior.ts:140-148 | the walk is counted first; it starts, as one move along the planned route, exactly when a walk for the ids can be planned from where the helper stands, and otherwise fails with no move (always when no voxel matches) |
| HelperBehaviors.HelperBehavior.FinishIntroduceWater | src/game/behaviors/HelperBehavior.ts:72-74 | a jump, the water hint, and the lock goes |
| HelperBehaviors.HelperBehavior.FinishIntroduceSprout | src/game/behaviors/HelperBehavior.ts:96-98 | a jump, the dirt hint, and the lock goes |
| HelperBehaviors.HelperBehavior.OnWalkEnd | src/game/behaviors/HelperBehavior.ts:66-73 | when a pending walk ends it is uncounted, the helper stops, the step's listener is registered (getitem on the player for water, usevoxel on the target for farmland), the introduce-once flag is set, then the jump and hint, and the lock goes |
| HelperBehaviors.HelperBehavior.EndWaterWalk | src/game/behaviors/HelperBehavior.ts:66-73 | stop, player listens for getitem, water flag set, jump and water hint, lock released |
| HelperBehaviors.HelperBehavior.EndFarmlandWalk | src/game/behaviors/HelperBehavior.ts:91-97 | stop, target listens for usevoxel, sprout flag set, jump and dirt hint, lock released |
| HelperBehaviors.HelperBehavior.RequestWheat | src/game/behaviors/HelperBehavior.ts:111-117 | the wheat listener ends up registered exactly once on the target, then the two wheat lines are said |
| HelperBehaviors.HelperBehavior.IntroduceWorker | src/game/behaviors/HelperBehavior.ts:129-134 | the four closing lines are said, in order, and nothing else changes |
| HelperBehaviors.HelperBehavior.ListenGetWater | src/game/behaviors/HelperBehavior.ts:76-81 | only water (6) counts: it unregisters itself from the player and records WATER_FOUND; any other id changes nothing |
| HelperBehaviors.HelperBehavior.ListenUseWater | src/game/behaviors/HelperBehavior.ts:100-105 | only farmland (7) counts: it unregisters itself from the player and records SPROUT_FOUND; any other id changes nothing |
| HelperBehaviors.HelperBehavior.ListenGetWheat | src/game/behaviors/HelperBehavior.ts:119-124 | only wheat (15) counts: it unregisters itself from the player and records WHEAT_FOUND; any other id changes nothing |
| HelperBehaviors.UseWhileWalking | src/game/behaviors/HelperBehavior.ts:28-33 | while the helper walks, a use is ignored and the helper does not turn to the player |
| HelperBehaviors.StuckAfterFailedWalk | src/game/behaviors/HelperBehavior.ts:32-65 | a walk that cannot start leaves the lock held and the walk counted, so a later use is ignored and the helper stops turning to the player |
| HelperBehaviors.WaterWalkConversation | src/game/behaviors/HelperBehavior.ts:61-74 | a first use at INIT whose walk completes says the two walk lines then the hint, sets the water flag, leaves the player listening for water and releases the lock |
| WorkerBehaviors.ReplyCases | src/game/behaviors/WorkerBehavior.ts:13-26 | the worker hands over the code editor exactly at WHEAT_FOUND, greets at each earlier stage, says nothing for a value that is no stage, and never replies twice |
| WorkerBehaviors.WorkerBehavior.constructor | src/game/behaviors/WorkerBehavior.ts:9 | a worker keeps the behaviour base it was built with |
| WorkerBehaviors.WorkerBehavior.OnUsed | src/game/behaviors/WorkerBehavior.ts:10-29 | a use while the lock is held does nothing; otherwise the source hears the reply for its progress, the worker looks at the source only when greeting, and the lock is released, so the set of held locks is unchanged |
| WorkerBehaviors.WorkerBehavior.Greet | src/game/behaviors/WorkerBehavior.ts:31-34 | the worker looks at the target's position, then sends the greeting |
| ElevatorBehaviors.DecreaseSpeedBrakes | src/game/behaviors/ElevatorBehavior.ts:20-24 | for a non-negative tick, braking keeps the sign of the speed, never adds to its magnitude, stops the cabin exactly when the speed is within one step of 0, and otherwise takes exactly one step off |
| ElevatorBehaviors.StopHeights | src/game/behaviors/ElevatorBehavior.ts:11-18 | a full-speed cabin needs 1 s and 1.5 blocks to stop, so the cabin turns at height 14.5 going up and 2 going down |
| ElevatorBehaviors.TickFollowsCycle | src/game/behaviors/ElevatorBehavior.ts:36-87 | a tick keeps the state or moves to the next in the cycle bottom, up, top, down; a waiting cabin counts down by dt and leaves exactly when the count goes below 0; a moving one turns into a waiting one with the full 3 s exactly at its stop height |
| ElevatorBehaviors.TickVelocity | src/game/behaviors/ElevatorBehavior.ts:36-87 | a waiting cabin brakes toward 0; going up it speeds up only while below the maximum speed, going down only while above its negation |
| ElevatorBehaviors.SpeedStaysBounded | src/game/behaviors/ElevatorBehavior.ts:36-87 | with ticks of at most maxDt, a speed within the maximum plus one tick's acceleration stays within it |
| ElevatorBehaviors.ElevatorBehavior.constructor | src/game/behaviors/ElevatorBehavior.ts:30-34 | a new elevator waits at the bottom with the full waiting time |
| ElevatorBehaviors.ElevatorBehavior.OnTick | src/game/behaviors/ElevatorBehavior.ts:36-87 | state, waiting time and vertical velocity become one step of the cycle from the old ones at the body's centre height; the horizontal velocity and everything else are unchanged |
| WalkHelpers.WalkHelper.constructor | src/game/HelperBehavior.ts:17-25 | the helper's character gains exactly one `used` listener, this instance's handler, and the helper starts idle |
| WalkHelpers.WalkHelper.OnTick | src/game/HelperBehavior.ts:27-29 | the helper turns to the player exactly when it is not walking |
| WalkHelpers.WalkHelper.HandleUsed | src/game/HelperBehavior.ts:35-56 | only an idle helper reacts; it becomes moving with one move along the planned route to the nearest water exactly when such a walk can be planned from where it stands, and otherwise fails and stays idle with no move |
| WalkHelpers.WalkHelper.OnMoveEnd | src/game/HelperBehavior.ts:47-51 | when the walk ends the helper is idle again, then stops, then jumps |
| WalkHelpers.OneWalkAtATime | src/game/HelperBehavior.ts:27-56 | a use that starts a walk is the only one until the walk ends: a second use and a tick during it do nothing, and afterwards the helper has walked, stopped and jumped and is idle |
| StepHelpers.ScriptGrows | src/game/HelperBehavior.tsx:41-62 | each step continues what the player heard in the steps before it: an earlier script is a prefix of a later one |
| StepHelpers.ScriptIsFinite | src/game/HelperBehavior.tsx:41-62 | the four steps say nine lines in all, and no use after the fourth step says anything more |
| StepHelpers.StepHelper.constructor | src/game/HelperBehavior.tsx:20-29 | the helper's character gains exactly one `used` listener, this instance's handler; the helper starts idle at step 0 |
| StepHelpers.StepHelper.OnTick | src/game/HelperBehavior.tsx:31-33 | the helper turns to the player exactly when it is not walking |
| StepHelpers.StepHelper.SendMessageToPlayer | src/game/HelperBehavior.tsx:35-37 | the player emits one `message` event with the helper as sender |
| StepHelpers.StepHelper.HandleUsed | src/game/HelperBehavior.tsx:41-62 | a walking helper, or one past the fourth step, ignores a use; an idle one says the current step's opening lines; steps 2 and 3 complete at once and are counted (step 3 with a jump); steps 0 and 1 start a walk along the planned route to the nearest water or farmland exactly when one can be planned, and otherwise stay idle with the step uncounted |
| StepHelpers.StepHelper.GoWater | src/game/HelperBehavior.tsx:69-84 | two lines, then a walk along the planned route to the nearest water exactly when one can be planned, or a failure with no move |
| StepHelpers.StepHelper.GoSprout | src/game/HelperBehavior.tsx:92-105 | one line, then a walk along the planned route to the nearest farmland exactly when one can be planned, or a failure with no move |
| StepHelpers.StepHelper.OrderWheat | src/game/HelperBehavior.tsx:114-118 | the player hears the two wheat lines in order |
| StepHelpers.StepHelper.GoCubie | src/game/HelperBehavior.tsx:120-125 | a line, a jump, a line |
| StepHelpers.StepHelper.GoWalk | src/game/HelperBehavior.tsx:74-84 | the helper becomes moving with one move along the planned route exactly when a walk to the nearest voxel of the step's kind can be planned from where it stands, and otherwise stays idle with no move |
| StepHelpers.StepHelper.OnMoveEnd | src/game/HelperBehavior.tsx:85-89 | when the walk ends the helper is idle again, stops, jumps, says the step's hint and counts the step |
| StepHelpers.OneStep | src/game/HelperBehavior.tsx:41-125 | a use of an idle helper followed by the end of its walk runs one whole step: the player hears exactly that step of the script and the step is counted, which happens exactly when the step does not walk or its walk can be planned; on a failed walk nothing is counted |
| Games.ChooseIsNearest | src/game/Game.ts:61-85 | the chosen place is the nearest neighbour with a standing place, the last of equally near ones, at its column centre and standing height; there is none exactly when no neighbour has a standing place |
| Games.TestNearestWalkable | src/game/Game.ts:72-85 | a candidate with no standing place (itself and the voxel above solid) or strictly farther than the best so far leaves `out` and the distance unchanged; otherwise `out` becomes its centre at standing height and its distance is answered |
| Games.GetNearestWalkableVoxel | src/game/Game.ts:61-70 | true exactly when some neighbour (x-1, x+1, z-1, z+1) has a standing place; then `out` holds the nearest one's centre, else `out` is untouched |
| Games.ChannelOrder | src/game/Game.ts:30-37 | the channel has the path's length plus two pushes: the start point, the path's portals from its last entry to its first, then the end point |
| Games.PortalsReversedIndex | src/game/Game.ts:33-36 | the k-th portal pushed is the path's entry counted k from its end |
| Games.BuildChannel | src/game/Game.ts:30-37 | the loop pushes exactly the channel: start point, portals in reverse order, end point |
| Games.NavMeshNode | src/game/Game.ts:42-59 | a node is found exactly when the downward ray hits, a chunk exists at the hit point and its mesh has a node there; the point on the mesh is the hit point |
| Games.FindPath | src/game/Game.ts:11-40 | null exactly when either end has no nav-mesh node or no path exists between the nodes; otherwise the string pulled through the channel from the start's point on the mesh through the reversed portals to the end's point |
| GameChunks.NodeBufferLayout | src/game/GameChunk.ts:29-39 | each node takes six vertices of eight slots, in node order: node i occupies slots 48·i to 48·i+47 and they hold its two triangles |
| GameChunks.NodeBufferStep | src/game/GameChunk.ts:32-39 | the buffer of the first k+1 nodes extends that of the first k by node k's two triangles |
| GameChunks.NodeBufferLength | src/game/GameChunk.ts:29 | the node buffer holds 48 slots per node |
| GameChunks.StitchBufferLength | src/game/GameChunk.ts:117-120 | the stitch buffer holds six slots per edge, so a mesh whose nodes have no edges gets an empty buffer |
| GameChunks.EdgePointsLength | src/game/GameChunk.ts:126-129 | each edge contributes its two centres, six slots |
| GameChunks.VaoCounts | src/game/GameChunk.ts:26-192 | a mesh of n nodes draws 6·n node vertices and 6·n centre points, and twice its edge count of stitch vertices; with no edges it still gets an empty stitch array, not none |
| GameChunks.CenterBufferLength | src/game/GameChunk.ts:169 | the centre-point buffer holds 18 slots per node |
| GameChunks.CenterPointsAround | src/game/GameChunk.ts:174-182 | every centre point lies 0.1 from the node's centre in x and in z, at the centre's height |
| GameChunks.WriteNodeVertex | src/game/GameChunk.ts:14-24 | the position goes to slots ptr..ptr+2 and the texture coordinates to ptr+4 and ptr+5; every other slot keeps its value, a write past either end is dropped, and the next offset is ptr+8 |
| GameChunks.WritePointVertex | src/game/GameChunk.ts:105-112 | three consecutive slots from ptr take the point, writes past either end are dropped, every other slot is kept, and the next offset is ptr+3 |
| GameChunks.PutNodeVertex | src/game/GameChunk.ts:14-24 | on a zeroed stretch inside the buffer, a node vertex write leaves exactly the vertex's eight slots there |
| GameChunks.PutPoint | src/game/GameChunk.ts:105-112 | a point written inside the buffer replaces exactly its three slots |
| GameChunks.PutNodeQuad | src/game/GameChunk.ts:33-38 | the six vertex writes of one node over a zeroed stretch leave exactly that node's two triangles there |
| GameChunks.PutNode | src/game/GameChunk.ts:32-39 | one pass of the node loop appends the node's triangles to what is built, with zeros after |
| GameChunks.PutCenterPoints | src/game/GameChunk.ts:174-182 | one pass of the centre loop replaces exactly 18 slots by the six points around the centre |
| GameChunks.CreateNavMeshVao | src/game/GameChunk.ts:26-59 | none for a mesh without nodes; otherwise the buffer holds every node's two triangles in order and the vertex count is the slots written divided by 8 |
| GameChunks.CreateNavMeshStitchVao | src/game/GameChunk.ts:114-140 | none for a mesh without nodes; otherwise the buffer, sized by the edge count, holds every edge's two centres node by node and the count is the slots written divided by 3 |
| GameChunks.PutEdge | src/game/GameChunk.ts:127-128 | an edge's source and destination centres follow what was written before |
| GameChunks.PutEdges | src/game/GameChunk.ts:126-129 | a node's edges are written one after another after what came before |
| GameChunks.EdgePointsStep | src/game/GameChunk.ts:126-129 | the points of the first e+1 edges extend those of the first e by edge e's two centres |
| GameChunks.StitchBufferPrefix | src/game/GameChunk.ts:117-130 | the edges of the first k nodes plus those of node k fit in the buffer sized for all |
| GameChunks.EdgeCountMonotone | src/game/GameChunk.ts:117-120 | the edges of a prefix of the nodes are no more than those of all nodes |
| GameChunks.CreateNavMeshCenterPointVao | src/game/GameChunk.ts:166-192 | none for a mesh without nodes; otherwise six points around each node's centre, in node order, and the count is the slots written divided by 3 |
| GameChunks.PaddedIsMask | src/game/GameChunk.ts:223 | the mesher sees exactly the values 0 and 1, 1 exactly for a non-empty solid voxel |
| GameChunks.GameChunk.constructor | src/game/GameChunk.ts:208-214 | a new chunk keeps its voxels, offset and solidity test, its mesh is out of date and no vertex arrays have been built |
| GameChunks.GameChunk.Set | src/game/GameChunk.ts:216-219 | the voxel is stored and the mesh marked out of date; the mesh, its serial, the vertex-array source and all three vertex arrays stay as they were |
| GameChunks.GameChunk.GetNavMesh | src/game/GameChunk.ts:221-230 | an out-of-date mesh is rebuilt from the padded voxels and the chunk offset and becomes current; an up-to-date one is answered unchanged |
| GameChunks.GameChunk.GetNavMeshVao | src/game/GameChunk.ts:232-246 | the answer is always the three vertex arrays of the current mesh; they are rebuilt only when the mesh they were built from is not the current one |
| GameChunks.WriteThenDraw | src/game/GameChunk.ts:216-246 | two draws without a write in between answer the same arrays, and a voxel write before a third draw makes it answer the arrays of the mesh rebuilt from the changed voxels |

## Left out

- The JavaScript interpreter, Babel and `eval`: whether a thread still has work after one interpreter step is a boolean supplied by the caller, and the scripts themselves are opaque strings.
- `postMessage` between threads is an outbox sequence and `setInterval` is an explicit tick method; the 10 ms period is a constant and timing itself is not modelled.
- `HEARTBEAT_INTERVAL` and `WM_HEARTBEAT` are not exported by src/vm/shared.ts; the model keeps them as the `undefined` they evaluate to, so heartbeat handling follows from that value.
- Rendering and WebGL: buffers are modelled by their contents, a vertex array object by its buffer and vertex count, and shaders, cameras, canvas resizing and draw calls are left out, as are src/main.ts and the render-only parts of the modes (FpsMode.ts, TopDownMode.ts, Mode.ts).
- The PathFinding A* finder, the nav-mesher, the nav-mesh path finder, `Channel.stringPull`, ndarray-ops and cwise are function parameters; the nearest-voxel search is the row-major scan they perform.
- Ray casts against the scene and ray/box intersection tests are inputs; `RAY_MIN_DIST` of FpsMode.tsx is a parameter.
- Asynchronous interleavings: each awaited effect happens at once, and only a walk splits a behaviour into its start, the end of the walk and the end of the move; the window in HelperBehavior.tsx between going idle and advancing the step counter is not modelled.
- Floating point: coordinates and speeds are reals, so `Float32Array` rounding and the rounding of double arithmetic are not modelled.
- `NaN` is not a value of the model: `getPropN` would read a stored `NaN` back as 0 (`NaN || 0`), which the model cannot express.
- Characters.Character.Emit: emitting only appends the event to the character's log; it runs no listener.  What a delivery would run is modelled by separate methods that a caller invokes (Characters.Character.Used for the `used` forwarder, the HelperBehavior `Listen*` methods for the `getitem` and `usevoxel` listeners, the helpers' `HandleUsed`, FpsModes.FpsMode.HandleCode), so which listeners an emit reaches, and in what order, is not modelled.
- The property-key constants and the quest progress values (INIT = 0 to WHEAT_FOUND = 3) come from files that are not part of this model and are assumed.
- Chunk storage is a map from chunk key to chunk, and mesh identity is a serial number rather than an object reference.
- Transitions that a mode asks for through `this.fsm.states` (ToFpsMode's frame and tick, FpsMode's `handleCode`) throw as written (see Findings); the intended members record the request for the next mode rather than perform the transition on the mode machine.
- The React UI components and the Blockly block shape definitions are left out; only the code generators are modelled.
- Characters.Character.Command: records the command sent to the body; what the body does with it belongs to the rendering side and is not modelled.

## Findings

| source | as written | input that shows it | evidently intended | confidence | as-written member | corrected member |
|---|---|---|---|---|---|---|
| src/vm/worker/ThreadManager.ts:45 | `run` creates the interpreter with `createInitInterpreter(this, threadId, objectId)`, so the host functions of src/vm/worker/api.ts:4 are bound with the thread id as the object key, and every host call looks up a thread under a key no thread is registered under | a spawned thread for object "a" with thread id 1 calling `moveTo`: `request` finds no thread under key 1 and throws | the binding key is the object id, so the request reaches the thread that made the call; as written the throw also escapes `interpreter.step` inside the reverse loop of `onTick` (src/vm/worker/ThreadManager.ts:67-74), so the threads after it in that loop are not stepped on that tick | not executed | HostApi.AsWrittenHostCallsThrow | HostApi.HostCallReachesSpawnedThread |
| src/game/modes/ToFpsMode.ts:63 | `onRender` destructures `fpsMode` from `this.fsm.states` and `onTick` reads `this.fsm.states.fpsMode` (line 74), but ModeFsm (src/game/modes/ModeFsm.ts:18-38) declares no `states`, so both throw a TypeError; were `states` present, `transitionTo` would still be handed a mode object where ModeFsm.transitionTo looks up a registry name, and would throw "State not exist" | entering the mode and rendering one frame: the opacity is set and the frame throws; a tick of 501 ms throws instead of leaving for the first-person mode | each frame is drawn, and once 500 ms have passed the machine moves to the first-person mode by its registry name | not executed | ToFpsModes.AsWrittenFadeThrows | ToFpsModes.IntendedFadeAsksForFps |
| src/game/modes/FpsMode/FpsMode.tsx:216 | `handleCode` emits `codeready` on the target and then reads `this.fsm.states.transitionMode`, which throws because ModeFsm declares no `states` | the player emitting `code` with any target while the first-person mode is current | after `codeready`, the machine moves to the transition mode with the target and the current view | not executed | FpsModes.FpsMode.HandleCodeAsWritten | FpsModes.FpsMode.HandleCode |
