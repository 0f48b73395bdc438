/** The operations of lang.Promise (src/promise.js) and the drain loop of lang.async
    (src/async.js) as functions from the world before to the world after and the way the
    call ended. The class Promise.Runtime performs the same steps in place; these
    functions are its specification and the subject of the lemmas in PromiseProps. */
module PromiseSpec {
  import opened PromiseTypes
  import Async

  /** The world after a call, and how the call ended. */
  datatype Outcome = Outcome(w: World, c: Completion)

  /** A drain: the world after it, how it ended, and the tasks it ran to completion and
      shifted off the queue, in order. */
  datatype RunOutcome = RunOutcome(w: World, c: Completion, trace: seq<Task>)

  /** How a call that returns normally ends (the library's functions return undefined). */
  const Normal: Completion := Return(Undefined)

  /** `promise.notify()`: queue one dispatch task (src/promise.js:146-149). */
  function Notify(w: World, p: PromiseId): (w': World)
  {
    w.(sched := Async.Enqueued(w.sched, NotifyTask(p)))
  }

  /** The state/value assignment of `resolve` or `reject` followed by `notify`. */
  function Settle(w: World, p: PromiseId, s: State, v: Value): (w': World)
    requires p in w.promises && w.promises[p].state == Pending
  {
    Notify(w.(promises := w.promises[p := w.promises[p].(state := s, value := v)]), p)
  }

  /** A fresh pending promise, as the constructor sets it up (src/promise.js:19-21). */
  function NewPending(w: World): (w': World)
  {
    w.(promises := w.promises[w.nextPromise := PState(Pending, Undefined, [])],
       nextPromise := w.nextPromise + 1)
  }

  /** A fresh `called = false` shared by the two callbacks of one adoption of `p`. */
  function NewGuard(w: World, p: PromiseId): (w': World)
  {
    w.(guards := w.guards[w.nextGuard := Guard(p, false)], nextGuard := w.nextGuard + 1)
  }

  /** `promise.reject(reason)` (src/promise.js:124-140). */
  function Reject(w: World, p: PromiseId, r: Value): (o: Outcome)
    ensures o.c == Normal || (o.c == Throw(TypeError) && o.w == w)
  {
    if p !in w.promises || w.promises[p].state != Pending then Outcome(w, Normal)
    else if r == Prom(p) then Outcome(w, Throw(TypeError))
    else Outcome(Settle(w, p, Rejected, r), Normal)
  }

  /** `then` with the handlers already chosen (src/promise.js:193-200): a fresh promise
      whose executor pushes one reaction onto `p.deferred` and notifies `p`. The new
      promise is `w.nextPromise`. */
  function ThenWith(w: World, p: PromiseId, onResolved: Handler, onRejected: Handler): (w': World)
  {
    var d := w.nextPromise;
    var w1 := NewPending(w);
    var w2 :=
      if p in w1.promises then
        w1.(promises := w1.promises[p := w1.promises[p].(deferred := w1.promises[p].deferred + [Reaction(onResolved, onRejected, d)])])
      else w1;
    Notify(w2, p)
  }

  /** `x.then(...)` on a promise `q` of this library, handing it the two guarded
      callbacks of a fresh adoption of `p` (src/promise.js:87, 93-105). */
  function AdoptPromise(w: World, p: PromiseId, q: PromiseId): (w': World)
  {
    var g := w.nextGuard;
    ThenWith(NewGuard(w, p), q, AdoptFulfil(g), AdoptReject(g))
  }

  /** The `catch (e)` of the resolution procedure (src/promise.js:107-111) once the
      foreign `then` has run: an exception rejects `p` only if no callback fired. */
  function CatchAdoption(r: Outcome, p: PromiseId, g: GuardId): (o: Outcome)
    ensures o.c.Return? ==> o.c == Normal
  {
    match r.c
    case Throw(e) =>
      if g in r.w.guards && r.w.guards[g].called then Outcome(r.w, Normal) else Reject(r.w, p, e)
    case OutOfFuel => r
    case Return(_) => Outcome(r.w, Normal)
  }

  /** `called = true` after the guarded `promise.resolve`/`promise.reject` returned; an
      exception from it leaves `called` false (src/promise.js:94-97, 100-103). */
  function MarkCalled(r: Outcome, g: GuardId): (o: Outcome)
  {
    if r.c.Return? && g in r.w.guards then Outcome(r.w.(guards := r.w.guards[g := r.w.guards[g].(called := true)]), Normal)
    else if r.c.Return? then Outcome(r.w, Normal)
    else r
  }

  /** The resolution procedure for an object `x` whose `then` property reads as `probe`
      (src/promise.js:87-112). */
  function AdoptThenable(env: Env, w: World, p: PromiseId, x: Value, probe: ThenProbe, fuel: nat): (o: Outcome)
    requires p in w.promises && w.promises[p].state == Pending
    ensures o.c.Return? ==> o.c == Normal
    decreases fuel, 0, 0
  {
    match probe
    case NoThen => Outcome(Settle(w, p, Resolved, x), Normal)
    case GetterThrows(e) => Reject(w, p, e)
    case ThenMethod(script) =>
      if fuel == 0 then Outcome(w, OutOfFuel)
      else
        var g := w.nextGuard;
        var w1 := NewGuard(w, p);
        var r := RunScript(env, w1, g, script, fuel - 1);
        CatchAdoption(r, p, g)
  }

  /** `promise.resolve(x)`, the resolution procedure (src/promise.js:75-117). */
  function Resolve(env: Env, w: World, p: PromiseId, x: Value, fuel: nat): (o: Outcome)
    ensures o.c.Return? ==> o.c == Normal
    decreases fuel, 1, 0
  {
    if p !in w.promises || w.promises[p].state != Pending then Outcome(w, Normal)
    else if x == Prom(p) then Outcome(w, Throw(TypeError))
    else match x
      case Prom(q) => Outcome(AdoptPromise(w, p, q), Normal)
      case Obj(obj) => AdoptThenable(env, w, p, x, env.objThen(obj), fuel)
      case Fun(f) =>
        // a function is never adopted, but reading its `then` may still throw
        (match env.funThen(f)
         case GetterThrows(e) => Reject(w, p, e)
         case _ => Outcome(Settle(w, p, Resolved, x), Normal))
      case _ => Outcome(Settle(w, p, Resolved, x), Normal)
  }

  /** The body of a foreign `then`, called with the guarded callbacks of guard `g`. */
  function RunScript(env: Env, w: World, g: GuardId, script: seq<ThenAction>, fuel: nat): (o: Outcome)
    decreases fuel, 3, |script|
  {
    if script == [] then Outcome(w, Normal)
    else
      var r :=
        match script[0]
        case FulfilCb(v) => Invoke(env, w, AdoptFulfil(g), v, fuel)
        case RejectCb(v) => Invoke(env, w, AdoptReject(g), v, fuel)
        case Raise(e) => Outcome(w, Throw(e));
      if r.c.Return? then
        var o := RunScript(env, r.w, g, script[1..], fuel);
        o
      else r
  }

  /** Calling handler `h` with argument `v`. */
  function Invoke(env: Env, w: World, h: Handler, v: Value, fuel: nat): (o: Outcome)
    decreases fuel, 2, 0
  {
    match h
    case NoHandler => Outcome(w, Throw(TypeError))  // calling a non-function
    case UserFn(f) => Outcome(w, env.call(f, v))
    case AdoptFulfil(g) =>
      if g !in w.guards || w.guards[g].called then Outcome(w, Normal)
      else MarkCalled(Resolve(env, w, w.guards[g].target, v, fuel), g)
    case AdoptReject(g) =>
      if g !in w.guards || w.guards[g].called then Outcome(w, Normal)
      else MarkCalled(Reject(w, w.guards[g].target, v), g)
    case AllSlot(a, i) =>
      if a !in w.alls then Outcome(w, Normal)
      else
        var st := FillSlot(w.alls[a], i, v);
        var w1 := w.(alls := w.alls[a := st]);
        if st.count == st.length then Resolve(env, w1, st.promise, Arr(st.result), fuel)
        else Outcome(w1, Normal)
    case SettleFulfil(q) => Resolve(env, w, q, v, fuel)
    case SettleReject(q) => Reject(w, q, v)
  }

  /** What `resolver(i)` records: input `i`'s value in slot `i`, and one more arrival
      (src/promise.js:217-218). */
  function FillSlot(st: AllState, i: nat, x: Value): (st': AllState)
    ensures st'.promise == st.promise && st'.length == st.length
    ensures st'.count == st.count + 1
    ensures |st'.result| == |st.result|
    ensures i < |st.result| ==> st'.result[i] == x
    ensures forall j :: 0 <= j < |st.result| && j != i ==> st'.result[j] == st.result[j]
  {
    st.(result := if i < |st.result| then st.result[i := x] else st.result, count := st.count + 1)
  }

  /** Settling the downstream promise with whatever a handler returned
      (src/promise.js:161, 167). */
  function ResolveWith(env: Env, r: Outcome, d: PromiseId, fuel: nat): (o: Outcome)
  {
    if r.c.Return? then Resolve(env, r.w, d, r.c.v, fuel) else r
  }

  /** The `try` block for one reaction of a promise in state `ps` (src/promise.js:159-171). */
  function React(env: Env, w: World, ps: PState, rx: Reaction, fuel: nat): (o: Outcome)
  {
    var h := if ps.state == Resolved then rx.onResolved else rx.onRejected;
    if ps.state == Pending then Outcome(w, Normal)
    else if !h.NoHandler? then ResolveWith(env, Invoke(env, w, h, ps.value, fuel), rx.downstream, fuel)
    else if ps.state == Resolved then Resolve(env, w, rx.downstream, ps.value, fuel)
    else Reject(w, rx.downstream, ps.value)
  }

  /** An exception rejects the promise: around one reaction (src/promise.js:172-174) and
      around an executor (src/promise.js:31-33). */
  function RejectOnThrow(r: Outcome, d: PromiseId): (o: Outcome)
    ensures r.c.Return? ==> o == r
  {
    if r.c.Throw? then Reject(r.w, d, r.c.e) else r
  }

  /** One reaction of promise `p` (src/promise.js:152-174). */
  function Dispatch(env: Env, w: World, p: PromiseId, rx: Reaction, fuel: nat): (o: Outcome)
  {
    if p !in w.promises then Outcome(w, Normal)
    else
      var r := React(env, w, w.promises[p], rx, fuel);
      var o := RejectOnThrow(r, rx.downstream);
      o
  }

  /** `promise.deferred.shift()` (src/promise.js:152). */
  function PopReaction(w: World, p: PromiseId): (w': World)
    requires p in w.promises && w.promises[p].deferred != []
  {
    w.(promises := w.promises[p := w.promises[p].(deferred := w.promises[p].deferred[1..])])
  }

  /** The `while (promise.deferred.length)` loop of a notify task (src/promise.js:151-175). */
  function NotifyLoop(env: Env, w: World, p: PromiseId, fuel: nat): (o: Outcome)
    decreases fuel
  {
    if p !in w.promises || w.promises[p].deferred == [] then Outcome(w, Normal)
    else if fuel == 0 then Outcome(w, OutOfFuel)
    else
      var w1 := PopReaction(w, p);
      var r := Dispatch(env, w1, p, w.promises[p].deferred[0], fuel - 1);
      if r.c.Return? then
        var o := NotifyLoop(env, r.w, p, fuel - 1);
        o
      else r
  }

  /** One turn of the notify loop. */
  lemma NotifyLoopStep(env: Env, w: World, p: PromiseId, fuel: nat)
    requires p in w.promises && w.promises[p].deferred != [] && fuel > 0
    ensures var r := Dispatch(env, PopReaction(w, p), p, w.promises[p].deferred[0], fuel - 1);
      NotifyLoop(env, w, p, fuel) == if r.c.Return? then NotifyLoop(env, r.w, p, fuel - 1) else r
  {
  }

  /** The notify loop stops when `deferred` is empty, or is cut off when the fuel is out. */
  lemma NotifyLoopStop(env: Env, w: World, p: PromiseId, fuel: nat)
    ensures p !in w.promises || w.promises[p].deferred == [] ==> NotifyLoop(env, w, p, fuel) == Outcome(w, Normal)
    ensures p in w.promises && w.promises[p].deferred != [] && fuel == 0 ==> NotifyLoop(env, w, p, fuel) == Outcome(w, OutOfFuel)
  {
  }

  /** The task queued by `notify`: nothing while `p` is pending (src/promise.js:149-177). */
  function RunTask(env: Env, w: World, t: Task, fuel: nat): (o: Outcome)
  {
    var p := t.p;
    if p in w.promises && w.promises[p].state != Pending then NotifyLoop(env, w, p, fuel)
    else Outcome(w, Normal)
  }

  /** `lang.async.run` (src/async.js:25-30): call the head, then shift it, until the
      queue is empty. An exception from a task leaves `run` with the task still queued. */
  function Run(env: Env, w: World, fuel: nat): (o: RunOutcome)
    ensures o.c.Return? ==> o.w.sched.tasks == [] && !o.w.sched.drainRequested
    decreases fuel
  {
    if w.sched.tasks == [] then RunOutcome(w.(sched := Async.DrainEnded(w.sched)), Normal, [])
    else if fuel == 0 then RunOutcome(w, OutOfFuel, [])
    else
      var t := w.sched.tasks[0];
      var r := RunTask(env, w, t, fuel - 1);
      if r.c.Throw? then RunOutcome(r.w.(sched := Async.DrainEnded(r.w.sched)), r.c, [])
      else if r.c.OutOfFuel? then RunOutcome(r.w, OutOfFuel, [])
      else
        var rest := Run(env, r.w.(sched := Async.Shifted(r.w.sched)), fuel - 1);
        RunOutcome(rest.w, rest.c, [t] + rest.trace)
  }

  /** The executor running inside the constructor, until it returns or throws. */
  function RunExecutor(env: Env, w: World, p: PromiseId, exec: seq<ExecStep>, fuel: nat): (o: Outcome)
    ensures o.c.Return? ==> o.c == Normal
    decreases |exec|
  {
    if exec == [] then Outcome(w, Normal)
    else
      var r :=
        match exec[0]
        case ExecResolve(x) => Resolve(env, w, p, x, fuel)
        case ExecReject(e) => Reject(w, p, e)
        case ExecThrow(e) => Outcome(w, Throw(e));
      if r.c.Return? then
        var o := RunExecutor(env, r.w, p, exec[1..], fuel);
        o
      else r
  }

  /** `new Promise(executor)` (src/promise.js:14-34); the new promise is `w.nextPromise`.
      A throw that leaves the executor rejects the promise; a throw from that rejection
      leaves the constructor. */
  function Construct(env: Env, w: World, exec: seq<ExecStep>, fuel: nat): (o: Outcome)
    ensures o.c.Return? ==> o.c == Normal
  {
    var p := w.nextPromise;
    var w0 := NewPending(w);
    var r := RunExecutor(env, w0, p, exec, fuel);
    var o := RejectOnThrow(r, p);
    o
  }

  /** The loop of `all` (src/promise.js:226-228) from index `i` on. */
  function AllLoop(env: Env, w: World, a: PromiseId, aid: AllId, items: seq<Value>, i: nat, fuel: nat): (o: Outcome)
    requires i <= |items|
    ensures o.c.Return? ==> o.c == Normal
    decreases |items| - i
  {
    if i == |items| then Outcome(w, Normal)
    else
      var q := w.nextPromise;
      var r := Construct(env, w, [ExecResolve(items[i])], fuel);
      if !r.c.Return? then r
      else
        var w1 := ThenWith(r.w, q, AllSlot(aid, i), SettleReject(a));
        var o := AllLoop(env, w1, a, aid, items, i + 1, fuel);
        o
  }

  /** The variables `count = 0, result = []` of an `all` call for promise `a` over
      `length` inputs, as a fresh entry `w.nextAll`. */
  function NewAll(w: World, a: PromiseId, length: nat): (w': World)
  {
    w.(alls := w.alls[w.nextAll := AllState(a, length, 0, seq(length, _ => Undefined))],
       nextAll := w.nextAll + 1)
  }

  /** The executor of `all` for promise `a` (src/promise.js:208-228). */
  function AllExecutor(env: Env, w: World, a: PromiseId, aid: AllId, items: seq<Value>, fuel: nat): (o: Outcome)
  {
    var r0 := if |items| == 0 then Resolve(env, w, a, Arr([]), fuel) else Outcome(w, Normal);
    if r0.c.Return? then
      var o := AllLoop(env, r0.w, a, aid, items, 0, fuel);
      o
    else r0
  }

  /** `Promise.all(iterable)` (src/promise.js:206-230); the result promise is `w.nextPromise`. */
  function All(env: Env, w: World, items: seq<Value>, fuel: nat): (o: Outcome)
  {
    var a := w.nextPromise;
    var w0 := NewPending(w);
    var w1 := NewAll(w0, a, |items|);
    var r := AllExecutor(env, w1, a, w.nextAll, items, fuel);
    var o := RejectOnThrow(r, a);
    o
  }

  /** The loop of `race` (src/promise.js:238-240) from index `i` on. */
  function RaceLoop(env: Env, w: World, a: PromiseId, items: seq<Value>, i: nat, fuel: nat): (o: Outcome)
    requires i <= |items|
    ensures o.c.Return? ==> o.c == Normal
    decreases |items| - i
  {
    if i == |items| then Outcome(w, Normal)
    else
      var q := w.nextPromise;
      var r := Construct(env, w, [ExecResolve(items[i])], fuel);
      if !r.c.Return? then r
      else
        var w1 := ThenWith(r.w, q, SettleFulfil(a), SettleReject(a));
        var o := RaceLoop(env, w1, a, items, i + 1, fuel);
        o
  }

  /** `Promise.race(iterable)` (src/promise.js:236-242); the result promise is `w.nextPromise`. */
  function Race(env: Env, w: World, items: seq<Value>, fuel: nat): (o: Outcome)
  {
    var a := w.nextPromise;
    var w0 := NewPending(w);
    var r := RaceLoop(env, w0, a, items, 0, fuel);
    var o := RejectOnThrow(r, a);
    o
  }
}
