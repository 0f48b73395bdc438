/** lang.Promise (src/promise.js) and lang.async.run (src/async.js) as a class whose fields
    are updated in place: the promises with their `state`, `value` and `deferred` fields,
    the `called` variables of adoptions, the variables of `all` calls, and the task queue.
    Every method is proved to do exactly what the matching function of PromiseSpec says. */
module Promise {
  import opened PromiseTypes
  import Spec = PromiseSpec
  import Async

  class Runtime {
    /** The code this library calls but cannot see. */
    const env: Env
    /** The module-level queue of src/async.js. */
    const scheduler: Async.Scheduler<Task>

    var promises: map<PromiseId, PState>
    var guards: map<GuardId, Guard>
    var alls: map<AllId, AllState>
    var nextPromise: nat
    var nextGuard: nat
    var nextAll: nat

    /** The whole state as a value. */
    function Snapshot(): World
      reads this, scheduler
    {
      World(promises, guards, alls, nextPromise, nextGuard, nextAll, scheduler.Snapshot())
    }

    constructor (env: Env)
      ensures Snapshot() == EmptyWorld() && this.env == env
    {
      this.env := env;
      scheduler := new Async.Scheduler();
      promises := map[];
      guards := map[];
      alls := map[];
      nextPromise := 0;
      nextGuard := 0;
      nextAll := 0;
    }

    /** `promise.notify()` (src/promise.js:146-149): queue one dispatch task. */
    method Notify(p: PromiseId)
      modifies scheduler
      ensures Snapshot() == Spec.Notify(old(Snapshot()), p)
    {
      scheduler.Push(NotifyTask(p));
    }

    /** Settling a pending promise: set its state and value, then notify it
        (src/promise.js:113-115, 136-138). */
    method Settle(p: PromiseId, s: State, v: Value)
      requires p in promises && promises[p].state == Pending
      modifies this, scheduler
      ensures Snapshot() == Spec.Settle(old(Snapshot()), p, s, v)
    {
      promises := promises[p := promises[p].(state := s, value := v)];
      Notify(p);
    }

    /** The first lines of the constructor (src/promise.js:19-21): a fresh pending promise. */
    method NewPending() returns (p: PromiseId)
      modifies this
      ensures Snapshot() == Spec.NewPending(old(Snapshot()))
      ensures p == old(nextPromise)
    {
      p := nextPromise;
      promises := promises[p := PState(Pending, Undefined, [])];
      nextPromise := nextPromise + 1;
    }

    /** A fresh, unfired `called` flag for an adoption of `p` (src/promise.js:87). */
    method NewGuard(p: PromiseId) returns (g: GuardId)
      modifies this
      ensures Snapshot() == Spec.NewGuard(old(Snapshot()), p)
      ensures g == old(nextGuard)
    {
      g := nextGuard;
      guards := guards[g := Guard(p, false)];
      nextGuard := nextGuard + 1;
    }

    /** `promise.reject(reason)` (src/promise.js:124-140). */
    method Reject(p: PromiseId, r: Value) returns (c: Completion)
      modifies this, scheduler
      ensures Spec.Outcome(Snapshot(), c) == Spec.Reject(old(Snapshot()), p, r)
    {
      if p in promises && promises[p].state == Pending {
        if r == Prom(p) {
          return Throw(TypeError);
        }
        Settle(p, Rejected, r);
      }
      c := Spec.Normal;
    }

    /** `then` with its handlers chosen (src/promise.js:193-200). */
    method ThenWith(p: PromiseId, onResolved: Handler, onRejected: Handler) returns (d: PromiseId)
      modifies this, scheduler
      ensures Snapshot() == Spec.ThenWith(old(Snapshot()), p, onResolved, onRejected)
      ensures d == old(nextPromise)
    {
      d := NewPending();
      // the executor of the new promise
      if p in promises {
        promises := promises[p := promises[p].(deferred := promises[p].deferred + [Reaction(onResolved, onRejected, d)])];
      }
      Notify(p);
    }

    /** `promise.then(onResolved, onRejected)` (src/promise.js:193-200). */
    method Then(p: PromiseId, onResolved: Value, onRejected: Value) returns (d: PromiseId)
      modifies this, scheduler
      ensures Snapshot() == Spec.ThenWith(old(Snapshot()), p, AsHandler(onResolved), AsHandler(onRejected))
      ensures d == old(nextPromise)
    {
      d := ThenWith(p, AsHandler(onResolved), AsHandler(onRejected));
    }

    /** `promise.catch_(onRejected)` (src/promise.js:184-186). */
    method Catch(p: PromiseId, onRejected: Value) returns (d: PromiseId)
      modifies this, scheduler
      ensures Snapshot() == Spec.ThenWith(old(Snapshot()), p, AsHandler(Undefined), AsHandler(onRejected))
      ensures d == old(nextPromise)
    {
      d := Then(p, Undefined, onRejected);
    }

    /** `then.call(x, ...)` on a promise `q` of this library (src/promise.js:93-105). */
    method AdoptPromise(p: PromiseId, q: PromiseId)
      modifies this, scheduler
      ensures Snapshot() == Spec.AdoptPromise(old(Snapshot()), p, q)
    {
      var g := NewGuard(p);
      var _ := ThenWith(q, AdoptFulfil(g), AdoptReject(g));
    }

    /** `promise.resolve(x)` (src/promise.js:75-117). */
    method Resolve(p: PromiseId, x: Value, fuel: nat) returns (c: Completion)
      modifies this, scheduler
      ensures Spec.Outcome(Snapshot(), c) == Spec.Resolve(env, old(Snapshot()), p, x, fuel)
      decreases fuel, 1, 0
    {
      if p !in promises || promises[p].state != Pending {
        return Spec.Normal;
      }
      if x == Prom(p) {
        return Throw(TypeError);
      }
      match x
      case Prom(q) =>
        AdoptPromise(p, q);
        c := Spec.Normal;
      case Obj(obj) =>
        c := AdoptThenable(p, x, env.objThen(obj), fuel);
      case Fun(f) =>
        // a function is never adopted, but reading its `then` may still throw
        match env.funThen(f) {
          case GetterThrows(e) =>
            c := Reject(p, e);
          case _ =>
            Settle(p, Resolved, x);
            c := Spec.Normal;
        }
      case _ =>
        Settle(p, Resolved, x);
        c := Spec.Normal;
    }

    /** The resolution procedure for an object whose `then` reads as `probe`
        (src/promise.js:87-112). */
    method AdoptThenable(p: PromiseId, x: Value, probe: ThenProbe, fuel: nat) returns (c: Completion)
      requires p in promises && promises[p].state == Pending
      modifies this, scheduler
      ensures Spec.Outcome(Snapshot(), c) == Spec.AdoptThenable(env, old(Snapshot()), p, x, probe, fuel)
      decreases fuel, 0, 0
    {
      match probe
      case NoThen =>
        Settle(p, Resolved, x);
        c := Spec.Normal;
      case GetterThrows(e) =>
        c := Reject(p, e);
      case ThenMethod(script) =>
        if fuel == 0 {
          return OutOfFuel;
        }
        var g := NewGuard(p);
        c := RunScript(g, script, fuel - 1);
        c := CatchAdoption(c, p, g);
    }

    /** The `catch (e)` of the resolution procedure (src/promise.js:107-111). */
    method CatchAdoption(c0: Completion, p: PromiseId, g: GuardId) returns (c: Completion)
      modifies this, scheduler
      ensures Spec.Outcome(Snapshot(), c) == Spec.CatchAdoption(Spec.Outcome(old(Snapshot()), c0), p, g)
    {
      match c0
      case Throw(e) =>
        if g in guards && guards[g].called {
          c := Spec.Normal;
        } else {
          c := Reject(p, e);
        }
      case OutOfFuel =>
        c := OutOfFuel;
      case Return(_) =>
        c := Spec.Normal;
    }

    /** A foreign `then` running with the two callbacks of guard `g`. */
    method RunScript(g: GuardId, script: seq<ThenAction>, fuel: nat) returns (c: Completion)
      modifies this, scheduler
      ensures Spec.Outcome(Snapshot(), c) == Spec.RunScript(env, old(Snapshot()), g, script, fuel)
      decreases fuel, 3, |script|
    {
      if script == [] {
        return Spec.Normal;
      }
      match script[0] {
        case FulfilCb(v) =>
          c := Invoke(AdoptFulfil(g), v, fuel);
        case RejectCb(v) =>
          c := Invoke(AdoptReject(g), v, fuel);
        case Raise(e) =>
          c := Throw(e);
      }
      if c.Return? {
        c := RunScript(g, script[1..], fuel);
      }
    }

    /** Calling handler `h` with argument `v`; for the adoption callbacks this is also a
        foreign thenable calling them later on. */
    method Invoke(h: Handler, v: Value, fuel: nat) returns (c: Completion)
      modifies this, scheduler
      ensures Spec.Outcome(Snapshot(), c) == Spec.Invoke(env, old(Snapshot()), h, v, fuel)
      decreases fuel, 2, 0
    {
      match h
      case NoHandler =>
        c := Throw(TypeError);
      case UserFn(f) =>
        c := env.call(f, v);
      case AdoptFulfil(g) =>
        // the first callback to run resolves the target; the guard fires once that returns
        if g in guards && !guards[g].called {
          c := Resolve(guards[g].target, v, fuel);
          if c.Return? {
            if g in guards {
              guards := guards[g := guards[g].(called := true)];
            }
            c := Spec.Normal;
          }
        } else {
          c := Spec.Normal;
        }
      case AdoptReject(g) =>
        // the first callback to run rejects the target; the guard fires once that returns
        if g in guards && !guards[g].called {
          c := Reject(guards[g].target, v);
          if c.Return? {
            if g in guards {
              guards := guards[g := guards[g].(called := true)];
            }
            c := Spec.Normal;
          }
        } else {
          c := Spec.Normal;
        }
      case AllSlot(a, i) =>
        if a in alls {
          // record the value in slot i and count it; the last slot to arrive resolves the result
          var st := alls[a];
          st := st.(result := if i < |st.result| then st.result[i := v] else st.result);
          st := st.(count := st.count + 1);
          alls := alls[a := st];
          if st.count == st.length {
            c := Resolve(st.promise, Arr(st.result), fuel);
          } else {
            c := Spec.Normal;
          }
        } else {
          c := Spec.Normal;
        }
      case SettleFulfil(q) =>
        c := Resolve(q, v, fuel);
      case SettleReject(q) =>
        c := Reject(q, v);
    }

    /** One reaction of promise `p` (src/promise.js:152-174). */
    method Dispatch(p: PromiseId, rx: Reaction, fuel: nat) returns (c: Completion)
      modifies this, scheduler
      ensures Spec.Outcome(Snapshot(), c) == Spec.Dispatch(env, old(Snapshot()), p, rx, fuel)
    {
      if p !in promises {
        return Spec.Normal;
      }
      var ps := promises[p];
      var d := rx.downstream;
      ghost var w0 := Snapshot();
      // the guarded part: the handler call and the downstream settlement
      if ps.state == Resolved {
        if !rx.onResolved.NoHandler? {
          c := Invoke(rx.onResolved, ps.value, fuel);
          if c.Return? {
            c := Resolve(d, c.v, fuel);
          }
        } else {
          c := Resolve(d, ps.value, fuel);
        }
      } else if ps.state == Rejected {
        if !rx.onRejected.NoHandler? {
          c := Invoke(rx.onRejected, ps.value, fuel);
          if c.Return? {
            c := Resolve(d, c.v, fuel);
          }
        } else {
          c := Reject(d, ps.value);
        }
      } else {
        c := Spec.Normal;
      }
      assert Spec.Outcome(Snapshot(), c) == Spec.React(env, w0, ps, rx, fuel);
      // an exception rejects the downstream promise
      if c.Throw? {
        c := Reject(d, c.e);
      }
    }

    /** One turn of the notify loop: `deferred.shift()` and dispatch of what it removed
        (src/promise.js:152-174). */
    method ShiftAndDispatch(p: PromiseId, fuel: nat) returns (c: Completion)
      requires p in promises && promises[p].deferred != [] && fuel > 0
      modifies this, scheduler
      ensures Spec.NotifyLoop(env, old(Snapshot()), p, fuel) ==
        if c.Return? then Spec.NotifyLoop(env, Snapshot(), p, fuel - 1) else Spec.Outcome(Snapshot(), c)
    {
      Spec.NotifyLoopStep(env, Snapshot(), p, fuel);
      var rx := promises[p].deferred[0];
      promises := promises[p := promises[p].(deferred := promises[p].deferred[1..])];
      c := Dispatch(p, rx, fuel - 1);
    }

    /** The task queued by `notify` (src/promise.js:149-177): while `p` is settled, take
        reactions off the front of `deferred` and dispatch them until none is left. */
    method NotifyTaskBody(p: PromiseId, fuel: nat) returns (c: Completion)
      modifies this, scheduler
      ensures Spec.Outcome(Snapshot(), c) == Spec.RunTask(env, old(Snapshot()), NotifyTask(p), fuel)
    {
      if p !in promises || promises[p].state == Pending {
        return Spec.Normal;
      }
      ghost var w0 := Snapshot();
      ghost var target := Spec.NotifyLoop(env, w0, p, fuel);
      assert Spec.RunTask(env, w0, NotifyTask(p), fuel) == target;
      var f := fuel;
      while p in promises && promises[p].deferred != []
        invariant Spec.NotifyLoop(env, Snapshot(), p, f) == target
        decreases f
      {
        if f == 0 {
          Spec.NotifyLoopStop(env, Snapshot(), p, f);
          return OutOfFuel;
        }
        c := ShiftAndDispatch(p, f);
        if !c.Return? {
          return;
        }
        f := f - 1;
      }
      Spec.NotifyLoopStop(env, Snapshot(), p, f);
      c := Spec.Normal;
    }

    /** `lang.async.run` (src/async.js:25-30): call the head of the queue, then shift it,
        until the queue is empty. `ran` lists the tasks that completed, in order. */
    method Run(fuel: nat) returns (c: Completion, ran: seq<Task>)
      modifies this, scheduler
      ensures Spec.RunOutcome(Snapshot(), c, ran) == Spec.Run(env, old(Snapshot()), fuel)
    {
      var f := fuel;
      ran := [];
      while scheduler.queue != []
        invariant var r := Spec.Run(env, Snapshot(), f);
          Spec.Run(env, old(Snapshot()), fuel) == Spec.RunOutcome(r.w, r.c, ran + r.trace)
        decreases f
      {
        if f == 0 {
          return OutOfFuel, ran;
        }
        ghost var before := Snapshot();
        var t := scheduler.Head();
        c := NotifyTaskBody(t.p, f - 1);  // run the head task
        assert Spec.Outcome(Snapshot(), c) == Spec.RunTask(env, before, t, f - 1);
        if c.Throw? {
          scheduler.EndDrain();  // the exception leaves run with the task still queued
          return;
        }
        if c.OutOfFuel? {
          return;
        }
        scheduler.Shift();
        ran := ran + [t];
        f := f - 1;
      }
      scheduler.EndDrain();
      c := Spec.Normal;
    }

    /** `new Promise(executor)` (src/promise.js:14-34); the executor is the list of
        calls it makes before it returns or throws. */
    method Construct(exec: seq<ExecStep>, fuel: nat) returns (p: PromiseId, c: Completion)
      modifies this, scheduler
      ensures Spec.Outcome(Snapshot(), c) == Spec.Construct(env, old(Snapshot()), exec, fuel)
      ensures p == old(nextPromise)
    {
      p := NewPending();
      ghost var w0 := Snapshot();
      c := Spec.Normal;
      var k := 0;
      while k < |exec| && c.Return?
        invariant 0 <= k <= |exec|
        invariant c.Return? ==> c == Spec.Normal
        invariant c.Return? ==> Spec.RunExecutor(env, Snapshot(), p, exec[k..], fuel) == Spec.RunExecutor(env, w0, p, exec, fuel)
        invariant !c.Return? ==> Spec.Outcome(Snapshot(), c) == Spec.RunExecutor(env, w0, p, exec, fuel)
        decreases |exec| - k
      {
        match exec[k] {
          case ExecResolve(x) =>
            c := Resolve(p, x, fuel);
          case ExecReject(r) =>
            c := Reject(p, r);
          case ExecThrow(e) =>
            c := Throw(e);
        }
        k := k + 1;
      }
      // an exception from the executor rejects the new promise
      if c.Throw? {
        c := Reject(p, c.e);
      }
    }

    /** `Promise.resolve(x)` (src/promise.js:64-68). */
    method StaticResolve(x: Value, fuel: nat) returns (p: PromiseId, c: Completion)
      modifies this, scheduler
      ensures Spec.Outcome(Snapshot(), c) == Spec.Construct(env, old(Snapshot()), [ExecResolve(x)], fuel)
      ensures p == old(nextPromise)
    {
      p, c := Construct([ExecResolve(x)], fuel);
    }

    /** `Promise.reject(r)` (src/promise.js:53-57). */
    method StaticReject(r: Value, fuel: nat) returns (p: PromiseId, c: Completion)
      modifies this, scheduler
      ensures Spec.Outcome(Snapshot(), c) == Spec.Construct(env, old(Snapshot()), [ExecReject(r)], fuel)
      ensures p == old(nextPromise)
    {
      p, c := Construct([ExecReject(r)], fuel);
    }

    /** `Promise.all(iterable)` (src/promise.js:206-230). */
    method All(items: seq<Value>, fuel: nat) returns (a: PromiseId, c: Completion)
      modifies this, scheduler
      ensures Spec.Outcome(Snapshot(), c) == Spec.All(env, old(Snapshot()), items, fuel)
      ensures a == old(nextPromise)
    {
      a := NewPending();
      // the fresh counter and result array of this call
      var aid := nextAll;
      alls := alls[aid := AllState(a, |items|, 0, seq(|items|, _ => Undefined))];
      nextAll := nextAll + 1;
      ghost var w1 := Snapshot();
      c := Spec.Normal;
      if |items| == 0 {
        c := Resolve(a, Arr([]), fuel);
      }
      if c.Return? {
        ghost var w2 := Snapshot();
        var i := 0;
        while i < |items| && c.Return?
          invariant 0 <= i <= |items|
          invariant c.Return? ==> c == Spec.Normal
          invariant c.Return? ==> Spec.AllLoop(env, Snapshot(), a, aid, items, i, fuel) == Spec.AllLoop(env, w2, a, aid, items, 0, fuel)
          invariant !c.Return? ==> Spec.Outcome(Snapshot(), c) == Spec.AllLoop(env, w2, a, aid, items, 0, fuel)
          decreases |items| - i
        {
          var q;
          q, c := StaticResolve(items[i], fuel);
          if c.Return? {
            var _ := ThenWith(q, AllSlot(aid, i), SettleReject(a));
          }
          i := i + 1;
        }
      }
      assert Spec.Outcome(Snapshot(), c) == Spec.AllExecutor(env, w1, a, aid, items, fuel);
      // an exception from the executor rejects the new promise
      if c.Throw? {
        c := Reject(a, c.e);
      }
    }

    /** `Promise.race(iterable)` (src/promise.js:236-242). */
    method Race(items: seq<Value>, fuel: nat) returns (a: PromiseId, c: Completion)
      modifies this, scheduler
      ensures Spec.Outcome(Snapshot(), c) == Spec.Race(env, old(Snapshot()), items, fuel)
      ensures a == old(nextPromise)
    {
      a := NewPending();
      ghost var w1 := Snapshot();
      c := Spec.Normal;
      var i := 0;
      while i < |items| && c.Return?
        invariant 0 <= i <= |items|
        invariant c.Return? ==> c == Spec.Normal
        invariant c.Return? ==> Spec.RaceLoop(env, Snapshot(), a, items, i, fuel) == Spec.RaceLoop(env, w1, a, items, 0, fuel)
        invariant !c.Return? ==> Spec.Outcome(Snapshot(), c) == Spec.RaceLoop(env, w1, a, items, 0, fuel)
        decreases |items| - i
      {
        var q;
        q, c := StaticResolve(items[i], fuel);
        if c.Return? {
          var _ := ThenWith(q, SettleFulfil(a), SettleReject(a));
        }
        i := i + 1;
      }
      // an exception from the executor rejects the new promise
      if c.Throw? {
        c := Reject(a, c.e);
      }
    }
  }
}
