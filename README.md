# lang.Promise and lang.async in Dafny

This project models the core of a small Promises/A+ implementation:

- `lang.Promise` (src/promise.js) is a promise with a `state`, a `value` and a `deferred` list of reactions. It has:
  - the resolution procedure;
  - `reject`;
  - the `notify` task that dispatches reactions;
  - `then` and `catch_`;
  - the constructor and the static `resolve` and `reject`;
  - `all` and `race`.
- `lang.async` (src/async.js) is the single FIFO task queue that defers reaction dispatch, together with its drain loop `run`.

Modules:

- `Async` (async.dfy). The queue as a value, `TaskQueue`, and as a class updated in place, `Scheduler`. The browser backend is reduced to two things: a flag saying a drain has been requested and has not finished yet, and a counter of calls to the backend hook.
- `PromiseTypes` (promise_types.dfy). The entities, as values:
  - JavaScript values, tagged by what `resolve` does with them;
  - the promise record `PState` and the reaction record `Reaction`;
  - the `called` guard of one adoption;
  - the variables of one `all` call;
  - the whole heap, `World`.
  - `WF` says that identifiers are below the allocation counters. `HeapEvolves` says how the heap may change: nothing is forgotten, a settled promise keeps its state and value, and a fired guard stays fired. `Evolves` adds that the queue only grows.
- `PromiseSpec` (promise_spec.dfy). Every operation as a function from a world to the next world and a `Completion`: a return, a throw, or `OutOfFuel`.
- `Promise` (promise.dfy). The class `Runtime`, whose fields are the heap of promises, guards and `all` states, plus a `Scheduler`. Its methods change those fields in place. Each method is proved to produce exactly the world and completion that the `PromiseSpec` function gives for the state it started from. The notify task is a `while` loop over `deferred`, and `run` is a `while` loop over the queue.
- `PromiseProps` (promise_props.dfy). Every operation keeps `WF` and `Evolves`. `run` keeps `HeapEvolves` and FIFO order.
- `PromiseLaws` (promise_laws.dfy). The Promises/A+ rules the code implements, operation by operation.

Code the library calls but cannot see is an oracle, `Env`:

- `Env.call(f, v)` says what a client callback returns or throws.
- `Env.objThen(o)` and `Env.funThen(f)` say what reading `x['then']` gives. It can throw, be a non-function, or be a function. A function is modelled as a script of the calls it makes synchronously to the two callbacks it receives (`FulfilCb`, `RejectCb`) and the exception it may raise.
- An executor is a script of `resolve`, `reject` and `throw` steps.
- A callback that a thenable keeps and calls later is modelled as a separate invocation: `Runtime.Invoke` on the `AdoptFulfil`/`AdoptReject` handler of its guard. The `resolve`/`reject` capabilities that `race` and `all` hand out are invoked the same way.

Some behaviour of the code is modelled as written, because the code does it:

- `reject(r)` throws a TypeError when `r` is the promise itself (src/promise.js:128-134), just as `resolve` does.
- Adoption happens only for objects (`typeof x == 'object'`). A function with a `then` fulfils the promise.
- `called` is set only after the inner `resolve` returns. So a thenable that synchronously resolves a promise with that promise itself makes the `catch` reject it with the TypeError.
- A handler may throw the very promise its `then` returned. The `reject(e)` in the notify loop's `catch` then throws a TypeError out of the task. `run` stops without shifting that task, so the queue is left non-empty with no drain requested, and no later `lang.async` call requests one (`RunThrowStrands`, `SelfThrowingHandlerStallsQueue`, `Async.StrandedStaysStranded`).

## Model

| member | source | states |
|---|---|---|
| Async.PushAppends | src/async.js:14-20 | `lang.async(cb)` appends `cb` after every queued task and runs or drops nothing. It calls the backend hook exactly when the queue was empty. On a non-empty queue it leaves the drain flag alone. |
| Async.PushArms | src/async.js:14-20 | Pushing keeps the invariant "a non-empty queue has a drain requested", and leaves a drain requested. |
| Async.StrandedStaysStranded | src/async.js:14-20 | Once a non-empty queue has no drain requested, any number of pushes append their callbacks and never call the backend hook again. |
| Async.GrowsTrans | src/async.js:14-20 | "Tasks are only appended, and no drain is requested while the queue is non-empty" composes over successive operations. |
| Async.ShiftedPrefix | src/async.js:26-29 | Shifting the head after it ran keeps the original queue a prefix of the tasks that ran followed by the tasks still queued. |
| Async.Scheduler.constructor | src/async.js:7 | The queue starts empty, with no drain requested and no hook calls. |
| Async.Scheduler.Push | src/async.js:14-20 | `lang.async(callback)` in place: the new queue state is `Enqueued` of the old one, so the callback sits at the end of the queue. |
| Async.Scheduler.Head | src/async.js:27 | Returns the head of a non-empty queue. |
| Async.Scheduler.Shift | src/async.js:28 | `queue.shift()` in place: drops the head. |
| Async.Scheduler.EndDrain | src/async.js:25-30 | The drain the backend started is over; only the flag changes. |
| PromiseTypes.EvolvesTrans | src/promise.js:75-140 | The evolution relation is transitive: settled promises stay settled, fired guards stay fired, and the queue only grows. |
| PromiseTypes.AsHandler | src/promise.js:160-166 | A reaction slot holds a handler exactly when `then` was given a function (`typeof ... == 'function'`), and that handler is the given function. |
| PromiseTypes.EmptyWorld | src/async.js:7 | The world before any promise exists is well formed, with no promises and an empty queue. |
| Async.Enqueued | src/async.js:14-20 | Definition of `lang.async(cb)` on the queue value: `cb` goes to the end, and the backend hook is called (drain requested, one more request) exactly when the queue becomes one task long. |
| Async.Shifted | src/async.js:28 | Definition of `queue.shift()`: drops the head of a non-empty queue. |
| Async.DrainEnded | src/async.js:25-30 | Definition of the end of a drain: only the drain flag is cleared. |
| Async.EnqueuedAll | src/async.js:14-20 | Definition of `lang.async` applied to several callbacks in turn. |
| PromiseSpec.Notify | src/promise.js:146-149 | Definition of `notify`: appends one notify task for the promise through `lang.async`. |
| PromiseSpec.Settle | src/promise.js:113-115 | Definition of the settling assignment: sets the state and value of a pending promise, keeps `deferred`, then notifies. |
| PromiseSpec.NewPending | src/promise.js:19-21 | Definition of a fresh promise: pending, `value` undefined, `deferred` empty, at the next identifier. |
| PromiseSpec.NewGuard | src/promise.js:87 | Definition of the `called` flag of one adoption of the promise: fresh and unfired. |
| PromiseSpec.ThenWith | src/promise.js:193-200 | Definition of `then`: a fresh pending promise whose executor pushes one reaction onto `deferred` and notifies the promise. |
| PromiseSpec.AdoptPromise | src/promise.js:87-105 | Definition of adopting a promise of this library: a fresh guard, then `then` on the other promise with the guarded callbacks. |
| PromiseSpec.MarkCalled | src/promise.js:94-103 | Definition of `called = true` after a guarded callback's settle call: set only when that call returned. |
| PromiseSpec.RunScript | src/promise.js:93-104 | Definition of a foreign `then` body: its callback calls in order, stopping at the first one that does not return. |
| PromiseSpec.Invoke | src/promise.js:93-104 | Definition of calling a handler: a client function is the oracle; a guarded callback settles its target unless `called`; an `all` slot records its value and resolves on the last arrival; a `race` or `all` capability resolves or rejects. |
| PromiseSpec.ResolveWith | src/promise.js:161-167 | Definition of `resolve(handler result)`: the downstream promise is resolved with what the handler returned; an exception passes through. |
| PromiseSpec.React | src/promise.js:159-171 | Definition of the `try` block of one reaction: the handler for the promise's state, or without one, `resolve(value)` or `reject(reason)`. |
| PromiseSpec.Dispatch | src/promise.js:152-174 | Definition of one reaction: the `try` block, with an exception rejecting the downstream promise. |
| PromiseSpec.PopReaction | src/promise.js:152 | Definition of `deferred.shift()`. |
| PromiseSpec.NotifyLoop | src/promise.js:151-175 | Definition of the `while (deferred.length)` loop: shift and dispatch until `deferred` is empty or a dispatch throws. |
| PromiseSpec.RunTask | src/promise.js:149-177 | Definition of the notify task: the loop, only when the promise is settled. |
| PromiseSpec.NewAll | src/promise.js:208-209 | Definition of `count = 0, result = []` for one `all` call. |
| PromiseSpec.AllExecutor | src/promise.js:207-229 | Definition of the executor of `all`: resolves with `[]` on empty input, then subscribes each input in order. |
| PromiseSpec.All | src/promise.js:206-230 | Definition of `Promise.all`: the constructor with that executor. |
| PromiseSpec.Race | src/promise.js:236-242 | Definition of `Promise.race`: the constructor with an executor that subscribes the two capabilities to each input in order. |
| PromiseSpec.Reject | src/promise.js:124-140 | `reject` either returns normally, or throws a TypeError and changes nothing. |
| PromiseSpec.CatchAdoption | src/promise.js:107-111 | The resolution procedure's `catch` returns normally whenever it does not rethrow. |
| PromiseSpec.AdoptThenable | src/promise.js:87-112 | Adopting a thenable returns `undefined` when it returns normally. |
| PromiseSpec.Resolve | src/promise.js:75-117 | `resolve` returns `undefined` when it returns normally. |
| PromiseSpec.FillSlot | src/promise.js:217-218 | `resolver(i)` writes `result[i]`, leaves every other slot and the array length alone, and adds one to `count`. |
| PromiseSpec.RejectOnThrow | src/promise.js:172-174 | The `catch (e) { reject(e) }` around a reaction passes a normal completion through unchanged. |
| PromiseSpec.Run | src/async.js:25-30 | A drain that returns leaves the queue empty and the drain over. |
| PromiseSpec.RunExecutor | src/promise.js:25-33 | An executor that returns normally returns `undefined`. |
| PromiseSpec.Construct | src/promise.js:14-34 | `new Promise(executor)` returns normally with `undefined` when it does not throw. |
| PromiseSpec.AllLoop | src/promise.js:226-228 | The `for` loop of `all` returns `undefined` when it returns. |
| PromiseSpec.RaceLoop | src/promise.js:238-240 | The `for` loop of `race` returns `undefined` when it returns. |
| Promise.Runtime.constructor | src/async.js:7 | A fresh runtime holds no promises and an empty queue. |
| Promise.Runtime.Notify | src/promise.js:146-149 | Appends one notify task for the promise to the queue. |
| Promise.Runtime.Settle | src/promise.js:113-115 | Sets state and value of a pending promise, then queues its notify task. |
| Promise.Runtime.NewPending | src/promise.js:19-21 | Allocates a promise that is pending, with `value` undefined and `deferred` empty. |
| Promise.Runtime.NewGuard | src/promise.js:87 | Allocates a `called = false` guard for one adoption. |
| Promise.Runtime.Reject | src/promise.js:124-140 | In place, ends in the world and completion `PromiseSpec.Reject` gives. |
| Promise.Runtime.ThenWith | src/promise.js:193-200 | Allocates the derived promise, pushes one reaction on `deferred` and calls `notify`, as `PromiseSpec.ThenWith` gives. |
| Promise.Runtime.Then | src/promise.js:193-200 | `then(onResolved, onRejected)` stores each argument as a handler only when it is a function. |
| Promise.Runtime.Catch | src/promise.js:184-186 | `catch_(g)` has the same effect as `then(undefined, g)`. |
| Promise.Runtime.AdoptPromise | src/promise.js:93-104 | Subscribes the guarded callbacks to another promise of this library, as `PromiseSpec.AdoptPromise` gives. |
| Promise.Runtime.Resolve | src/promise.js:75-117 | In place, ends in the world and completion `PromiseSpec.Resolve` gives. |
| Promise.Runtime.AdoptThenable | src/promise.js:87-112 | In place, ends as `PromiseSpec.AdoptThenable` gives. |
| Promise.Runtime.CatchAdoption | src/promise.js:107-111 | In place, ends as `PromiseSpec.CatchAdoption` gives. |
| Promise.Runtime.RunScript | src/promise.js:93-104 | A foreign `then` calling the guarded callbacks, in place, ends as `PromiseSpec.RunScript` gives. |
| Promise.Runtime.Invoke | src/promise.js:93-104 | Calling a handler or capability, in place, ends as `PromiseSpec.Invoke` gives. |
| Promise.Runtime.Dispatch | src/promise.js:152-174 | One reaction, in place, ends as `PromiseSpec.Dispatch` gives. |
| Promise.Runtime.ShiftAndDispatch | src/promise.js:151-175 | One loop turn, in place, leaves the notify loop's outcome unchanged. |
| Promise.Runtime.NotifyTaskBody | src/promise.js:149-177 | The notify task's `while`/`shift` loop, in place, ends as `PromiseSpec.RunTask` gives. |
| Promise.Runtime.Run | src/async.js:25-30 | `run`'s `while` loop, in place, ends in the world, completion and trace of completed tasks that `PromiseSpec.Run` gives. |
| Promise.Runtime.Construct | src/promise.js:14-34 | `new Promise(executor)`, in place, ends as `PromiseSpec.Construct` gives. |
| Promise.Runtime.StaticResolve | src/promise.js:64-68 | `Promise.resolve(x)` is the constructor with an executor that only calls `resolve(x)`. |
| Promise.Runtime.StaticReject | src/promise.js:53-57 | `Promise.reject(r)` is the constructor with an executor that only calls `reject(r)`. |
| Promise.Runtime.All | src/promise.js:206-230 | `Promise.all`, in place, ends as `PromiseSpec.All` gives. |
| Promise.Runtime.Race | src/promise.js:236-242 | `Promise.race`, in place, ends as `PromiseSpec.Race` gives. |
| PromiseProps.SettleEvolves | src/promise.js:113-115 | Settling a pending promise keeps the world well formed and only evolves it. |
| PromiseProps.RejectEvolves | src/promise.js:124-140 | `reject` keeps the world well formed and only evolves it. |
| PromiseProps.ThenWithEvolves | src/promise.js:193-200 | `then` keeps the world well formed and only evolves it. |
| PromiseProps.AdoptPromiseEvolves | src/promise.js:93-104 | Subscribing to a promise keeps the world well formed and only evolves it. |
| PromiseProps.CatchAdoptionEvolves | src/promise.js:107-111 | The adoption `catch` keeps the world well formed and only evolves it. |
| PromiseProps.MarkCalledEvolves | src/promise.js:97 | `called = true` keeps the world well formed and only evolves it. |
| PromiseProps.AdoptThenableEvolves | src/promise.js:87-112 | Adopting a thenable never un-settles a promise or un-fires a guard, and the queue only grows. |
| PromiseProps.CallThenEvolves | src/promise.js:93-111 | Calling a foreign `then` with a fresh guard, inside its `try`, only evolves the world. |
| PromiseProps.ResolveEvolves | src/promise.js:75-117 | `resolve`, through any nesting of thenables, never changes a settled promise, and the queue only grows. |
| PromiseProps.RunScriptEvolves | src/promise.js:93-104 | A foreign `then` calling the callbacks only evolves the world. |
| PromiseProps.InvokeEvolves | src/promise.js:93-104 | Invoking any handler or capability only evolves the world. |
| PromiseProps.DispatchEvolves | src/promise.js:152-174 | Dispatching one reaction only evolves the world. |
| PromiseProps.NotifyTurnEvolves | src/promise.js:152-174 | One shift-and-dispatch turn only evolves the world. |
| PromiseProps.NotifyLoopEvolves | src/promise.js:151-175 | The whole notify loop only evolves the world. |
| PromiseProps.NotifyLoopDrains | src/promise.js:151-175 | A notify loop that returns normally leaves `deferred` empty. |
| PromiseProps.RunTaskEvolves | src/promise.js:149-177 | A notify task only evolves the world. |
| PromiseProps.RunTaskAppends | src/async.js:17-19 | A task only appends to the queue. While the queue is non-empty, a task causes no backend hook call. |
| PromiseProps.RunKeepsOrder | src/async.js:25-30 | `run` completes tasks in insertion order: the starting queue is a prefix of the completed tasks followed by the tasks still queued. Tasks queued during the drain call no backend hook. |
| PromiseProps.RunKeepsSettled | src/async.js:25-30 | However `run` ends, it keeps the world well formed, and no settled promise changes state or value. No fired guard is re-armed, and nothing in the heap is forgotten. |
| PromiseProps.RunExecutorEvolves | src/promise.js:25-33 | Running an executor only evolves the world. |
| PromiseProps.ConstructEvolves | src/promise.js:14-34 | The constructor keeps the world well formed and only evolves it. The new promise exists afterwards and did not exist before. |
| PromiseProps.AllLoopEvolves | src/promise.js:226-228 | The loop of `all` only evolves the world. |
| PromiseProps.AllExecutorEvolves | src/promise.js:207-229 | The executor of `all` only evolves the world. |
| PromiseProps.AllEvolves | src/promise.js:206-230 | `Promise.all` only evolves the world, and its result promise exists afterwards. |
| PromiseProps.RaceLoopEvolves | src/promise.js:238-240 | The loop of `race` only evolves the world. |
| PromiseProps.RaceEvolves | src/promise.js:236-242 | `Promise.race` only evolves the world, and its result promise exists afterwards. |
| PromiseLaws.SettledIgnoresSettling | src/promise.js:75-140 | On a settled promise, `resolve` and `reject` return normally and change nothing. |
| PromiseLaws.SelfSettlingThrows | src/promise.js:78-134 | `resolve(p)` and `reject(p)` on a pending `p` throw a TypeError and change nothing, so `p` stays pending. |
| PromiseLaws.ResolvePlainFulfils | src/promise.js:113-115 | Resolving with a non-thenable value sets `RESOLVED` and the value. It keeps `deferred`, changes no other promise, and queues exactly one notify task. |
| PromiseLaws.RejectRejects | src/promise.js:136-138 | Rejecting with any other reason sets `REJECTED` and the reason, keeps `deferred`, and queues exactly one notify task. |
| PromiseLaws.ResolveFunction | src/promise.js:89-115 | A function is never adopted. It fulfils the promise, unless reading its `then` throws, which rejects the promise with that exception. |
| PromiseLaws.ResolveAdoptsPromise | src/promise.js:87-105 | Resolving with another promise leaves `p` pending. It creates one unfired guard and appends one guarded reaction to the other promise's `deferred`. |
| PromiseLaws.FiredGuardIsInert | src/promise.js:94-103 | After one callback has fired, further callback calls change nothing; only the thenable's own exception gets out. |
| PromiseLaws.FulfilThenThrowFulfils | src/promise.js:94-111 | A thenable that fulfils and then throws leaves the promise fulfilled: the exception is ignored because `called` is set. |
| PromiseLaws.ThenableSelfFulfilRejects | src/promise.js:93-111 | A thenable that synchronously resolves the promise with itself gets it rejected with a TypeError, because `called` is not yet set when the inner `resolve` throws. |
| PromiseLaws.ThenableThrowRejects | src/promise.js:89-111 | An exception from reading or calling `then`, before any callback fires, rejects the promise with that exception. |
| PromiseLaws.ThenAppendsReaction | src/promise.js:193-200 | `then` returns a fresh pending promise. It appends exactly one reaction after the earlier ones, changes no other promise, and queues one notify task. |
| PromiseLaws.PendingTaskIsNoop | src/promise.js:150 | A notify task of a pending promise does nothing. |
| PromiseLaws.DispatchSettlesDownstream | src/promise.js:158-174 | Depends on the handler. A handler's plain result fulfils the derived promise, even on the rejected branch. A handler's exception rejects it. Without a handler it takes the value or the reason. |
| PromiseLaws.DispatchSettlesDirectly | src/promise.js:158-174 | Take a reaction whose handler returns a plain value or throws, or that has no handler and passes on a plain value or a reason. The thrown value or reason must not be the downstream promise itself. Such a reaction settles its downstream promise with the state and value it chose. It queues that promise's notify task and changes nothing else. |
| PromiseLaws.NotifyTurnSettles | src/promise.js:151-175 | One turn over such reactions removes the first reaction from `deferred` and settles its downstream promise. The remaining reactions are untouched. |
| PromiseLaws.SettledStaysSettled | src/promise.js:151-175 | A promise settled before a notify loop keeps its state and value through it. |
| PromiseLaws.NotifyRunsReactionsInOrder | src/promise.js:149-177 | The notify task of a settled promise whose reactions settle distinct pending promises runs them all in registration order and returns normally. Each downstream promise is settled as its handler chose, and their notify tasks join the queue in that same order. `deferred` ends empty. |
| PromiseLaws.SelfThrowingHandlerEscapes | src/promise.js:172-174 | A handler that throws its own derived promise makes the `catch`'s `reject` throw a TypeError out of the task, and changes nothing. |
| PromiseLaws.RunThrowStrands | src/async.js:26-29 | A task that throws ends `run` before it is shifted: the queue stays non-empty with no drain requested. |
| PromiseLaws.SelfThrowingHandlerStallsQueue | src/async.js:25-30 | Concrete case: one such reaction leaves its notify task stranded at the head of the queue, and the derived promise stays pending. |
| PromiseLaws.SettledExecutorIsInert | src/promise.js:25-33 | Once its promise is settled, the rest of an executor changes nothing. |
| PromiseLaws.ExecutorFirstSettlementWins | src/promise.js:25-33 | An executor that first resolves with a plain value leaves the promise fulfilled with it, whatever it does afterwards, throwing included. |
| PromiseLaws.ExecutorThrowRejects | src/promise.js:25-33 | Any executor that throws while its promise is still pending gets the promise rejected with the exception. When the exception is the promise itself, the constructor throws a TypeError instead. |
| PromiseLaws.StaticRejectRejects | src/promise.js:53-57 | `Promise.reject(r)` returns a promise rejected with `r` that has no reactions. |
| PromiseLaws.StaticResolveFulfils | src/promise.js:64-68 | `Promise.resolve(x)` with a plain `x` returns a promise fulfilled with `x`. |
| PromiseLaws.AllOfNothing | src/promise.js:211-213 | `Promise.all([])` is fulfilled with an empty array. |
| PromiseLaws.FillSlotsContents | src/promise.js:215-223 | After any sequence of resolver calls, slot `j` holds input `j`'s value if `j` called, and is untouched otherwise. `count` grows by one per call. |
| PromiseLaws.AllResultInInputOrder | src/promise.js:215-223 | Whatever order the inputs settle in, the array ends in input order. `count` reaches `iterable.length` exactly at the last call. |
| PromiseLaws.AllSlotResolvesOnLast | src/promise.js:215-223 | A resolver call fulfils the `all` promise with the array exactly when `count` reaches the input length; an earlier call only records the value. |
| PromiseLaws.RaceFirstSettlementWins | src/promise.js:236-242 | The capabilities given to each input settle the result only while it is pending; every later call is a no-op. The same holds for the `reject` that `all` hands out. |

## Left out

- The host backend: MutationObserver, the DOM element and `setTimeout` (src/async.js:32-45). It is reduced to the `drainRequested` flag and the `requests` counter. The model does not say when the host calls `run`.
- The `DEBUG` and `USE_MICROTASKS` flags and the TypeError messages (src/const.js). There is one `TypeError` value.
- JavaScript loose equality and `typeof`. Values are a tagged datatype, so `x == promise` is identity of promise references. Coercions such as an object whose string form equals another value's are not modelled.
- Primitives whose prototype has a `then` (`x && x['then']` on a string or number). A `Prim` never has a `then`.
- What client callbacks, executors and foreign thenables actually do. They are an oracle (`Env`) and scripts. A callback's own side effects on promises, beyond the calls in its script, are not modelled. Callbacks kept and called later are separate `Invoke` calls.
- Termination: nested thenables, the notify loop and `run` carry a `fuel` bound and end with `OutOfFuel` when it runs out. The model makes no liveness claim.
- The live `iterable.length` of `all` (src/promise.js:220, 226): the source reads it again on every loop test and in every resolver. The model reads it once, as `AllState.length` and `|items|`. An input array that a callback lengthens or shortens during the call is not modelled.
- Callbacks that catch: a foreign `then` script and an executor script stop at the first step that does not return. So a `then` or an executor that catches an exception thrown by one of its callbacks and carries on cannot be expressed.
- Arrays with holes: `result` starts as an array of `Undefined` of the input length, rather than growing as slots are written.
- polyfill.js, adapters/adapter.js and Gruntfile.js are not part of this model.
- Identifiers that are not in the heap: the operations treat them as a no-op, whereas the source always has a real object. For the same reason the notify loop checks that the promise exists. `WF` only bounds the identifiers in each map by its allocation counter. The model does not prove that the identifiers a world refers to are in the heap: reaction targets, guard targets, `all` promises and queued tasks. So these no-op branches are not shown to be unreachable.
- PromiseSpec.Resolve: its own contract only says that a normal return returns `undefined`; what it does is stated by the lemmas of `PromiseLaws` and `PromiseProps` about it.
- PromiseSpec.AdoptThenable: its own contract only says that a normal return returns `undefined`; what it does is stated by the lemmas of `PromiseLaws` and `PromiseProps` about it.
- PromiseSpec.RunExecutor: its own contract only says that a normal return returns `undefined`; what it does is stated by the lemmas of `PromiseLaws` and `PromiseProps` about it.
- PromiseSpec.Construct: its own contract only says that a normal return returns `undefined`; what it does is stated by the lemmas of `PromiseLaws` and `PromiseProps` about it.
- PromiseSpec.AllLoop: its own contract only says that a normal return returns `undefined`; what it does is stated by the lemmas of `PromiseLaws` and `PromiseProps` about it.
- PromiseSpec.RaceLoop: its own contract only says that a normal return returns `undefined`; what it does is stated by the lemmas of `PromiseLaws` and `PromiseProps` about it.
- PromiseSpec.CatchAdoption: its own contract only says that a normal return returns `undefined`; what it does is stated by the lemmas of `PromiseLaws` and `PromiseProps` about it.
