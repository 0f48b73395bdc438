/** The entities of lang.Promise (src/promise.js) as values: JavaScript values as the
    resolution procedure tells them apart, the promise record, its reactions, the closures
    the library hands out, and the whole heap the operations act on. */
module PromiseTypes {
  import Async

  type PromiseId = nat
  type FnId = nat
  type ObjId = nat
  type GuardId = nat
  type AllId = nat

  /** A JavaScript value, tagged by what `resolve` does with it. */
  datatype Value =
    | Undefined
    | Null
    | Prim(n: int)            // numbers, strings, booleans: never thenables
    | Fun(f: FnId)            // a function object (typeof 'function')
    | Obj(o: ObjId)           // any other object (typeof 'object')
    | Prom(p: PromiseId)      // a promise of this library
    | Arr(items: seq<Value>)  // an array, such as the one `all` resolves with
    | TypeError               // the TypeError thrown when a promise is settled with itself

  /** How a call ends: it returns a value, throws one, or is cut off by the fuel bound. */
  datatype Completion = Return(v: Value) | Throw(e: Value) | OutOfFuel

  /** One step taken by a foreign `then(resolvePromise, rejectPromise)` while it runs. */
  datatype ThenAction =
    | FulfilCb(v: Value)   // calls its first argument with v
    | RejectCb(r: Value)   // calls its second argument with r
    | Raise(e: Value)      // throws e

  /** What reading `x['then']` yields. */
  datatype ThenProbe =
    | NoThen                              // not a function
    | GetterThrows(e: Value)              // the property read throws e
    | ThenMethod(script: seq<ThenAction>) // a function; calling it takes these steps

  /** The code this library cannot see: client callbacks (what they return or throw)
      and the `then` property of objects and functions. */
  datatype Env = Env(
    call: (FnId, Value) -> Completion,
    objThen: ObjId -> ThenProbe,
    funThen: FnId -> ThenProbe)

  /** One step of the executor passed to `new Promise(executor)`. */
  datatype ExecStep =
    | ExecResolve(x: Value)   // calls its resolve argument
    | ExecReject(r: Value)    // calls its reject argument
    | ExecThrow(e: Value)     // throws

  /** lang.Promise.State (src/promise.js:40-44). */
  datatype State = Pending | Resolved | Rejected

  /** A function stored in a reaction: a client callback or a closure of this library. */
  datatype Handler =
    | NoHandler                   // an onResolved/onRejected that is not a function
    | UserFn(f: FnId)             // a client callback
    | AdoptFulfil(g: GuardId)     // first callback handed to a thenable's then
    | AdoptReject(g: GuardId)     // second callback handed to a thenable's then
    | AllSlot(a: AllId, i: nat)   // `resolver(i)` inside `all`
    | SettleFulfil(p: PromiseId)  // the resolve capability of promise p
    | SettleReject(p: PromiseId)  // the reject capability of promise p

  /** An entry of `deferred`: `[onResolved, onRejected, resolve, reject]`, where the last
      two are the capabilities of the promise `then` returned. */
  datatype Reaction = Reaction(onResolved: Handler, onRejected: Handler, downstream: PromiseId)

  /** The fields of one promise. */
  datatype PState = PState(state: State, value: Value, deferred: seq<Reaction>)

  /** The `called` variable shared by the two callbacks of one adoption, and the promise
      those callbacks settle. */
  datatype Guard = Guard(target: PromiseId, called: bool)

  /** The variables of one `all` call: its promise, `iterable.length`, `count`, `result`. */
  datatype AllState = AllState(promise: PromiseId, length: nat, count: nat, result: seq<Value>)

  /** The only task this library queues: the closure built by `notify`. */
  datatype Task = NotifyTask(p: PromiseId)

  /** Everything the operations read and write. */
  datatype World = World(
    promises: map<PromiseId, PState>,
    guards: map<GuardId, Guard>,
    alls: map<AllId, AllState>,
    nextPromise: nat,
    nextGuard: nat,
    nextAll: nat,
    sched: Async.TaskQueue<Task>)

  /** Identifiers handed out so far are below the allocation counters. */
  ghost predicate WF(w: World) {
    && (forall p :: p in w.promises ==> p < w.nextPromise)
    && (forall g :: g in w.guards ==> g < w.nextGuard)
    && (forall a :: a in w.alls ==> a < w.nextAll)
  }

  /** A settled promise keeps its state and value. */
  ghost predicate Keeps(s: PState, s': PState) {
    s.state != Pending ==> s'.state == s.state && s'.value == s.value
  }

  /** How the heap of promises, guards and `all` calls may change under any operation,
      `lang.async.run` included: nothing is forgotten, no settled promise changes, a fired
      guard stays fired, and the allocation counters only grow. */
  ghost predicate HeapEvolves(w: World, w': World) {
    && (forall p :: p in w.promises ==> p in w'.promises && Keeps(w.promises[p], w'.promises[p]))
    && (forall g :: g in w.guards ==>
          g in w'.guards && w'.guards[g].target == w.guards[g].target
          && (w.guards[g].called ==> w'.guards[g].called))
    && (forall a :: a in w.alls ==> a in w'.alls && w'.alls[a].promise == w.alls[a].promise)
    && w.nextPromise <= w'.nextPromise
    && w.nextGuard <= w'.nextGuard
    && w.nextAll <= w'.nextAll
  }

  /** How the world may change under any operation other than a drain: the heap evolves
      and the task queue only grows. */
  ghost predicate Evolves(w: World, w': World) {
    HeapEvolves(w, w') && Async.Grows(w.sched, w'.sched)
  }

  /** Evolution composes. */
  lemma EvolvesTrans(w1: World, w2: World, w3: World)
    requires Evolves(w1, w2) && Evolves(w2, w3)
    ensures Evolves(w1, w3)
  {
    Async.GrowsTrans(w1.sched, w2.sched, w3.sched);
  }

  /** Heap evolution composes. */
  lemma HeapEvolvesTrans(w1: World, w2: World, w3: World)
    requires HeapEvolves(w1, w2) && HeapEvolves(w2, w3)
    ensures HeapEvolves(w1, w3)
  {
  }

  /** The function value `then` stores: a function becomes a handler, anything else is
      skipped (`typeof onResolved == 'function'`). */
  function AsHandler(v: Value): (h: Handler)
    ensures h.NoHandler? <==> !v.Fun?
    ensures v.Fun? ==> h == UserFn(v.f)
  {
    if v.Fun? then UserFn(v.f) else NoHandler
  }

  /** The world before any promise exists. */
  function EmptyWorld(): (w: World)
    ensures WF(w) && w.promises == map[] && w.sched.tasks == []
  {
    World(map[], map[], map[], 0, 0, 0, Async.Initial())
  }
}
