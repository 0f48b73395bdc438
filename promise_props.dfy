/** What lang.Promise promises, proved about the functions of PromiseSpec. */
module PromiseProps {
  import opened PromiseTypes
  import opened PromiseSpec
  import Async

  // ---------------------------------------------------------------------------------
  // Every operation keeps the heap well formed and only lets it evolve: a settled
  // promise keeps its state and value, nothing is forgotten, a fired `called` stays
  // fired, and the task queue only grows at its end.
  // ---------------------------------------------------------------------------------

  lemma SettleEvolves(w: World, p: PromiseId, s: State, v: Value)
    requires WF(w) && p in w.promises && w.promises[p].state == Pending
    ensures WF(Settle(w, p, s, v)) && Evolves(w, Settle(w, p, s, v))
  {
    Async.PushAppends(w.sched, NotifyTask(p));
  }

  lemma RejectEvolves(w: World, p: PromiseId, r: Value)
    requires WF(w)
    ensures WF(Reject(w, p, r).w) && Evolves(w, Reject(w, p, r).w)
  {
    if p in w.promises && w.promises[p].state == Pending && r != Prom(p) {
      SettleEvolves(w, p, Rejected, r);
    }
  }

  lemma ThenWithEvolves(w: World, p: PromiseId, h1: Handler, h2: Handler)
    requires WF(w)
    ensures WF(ThenWith(w, p, h1, h2)) && Evolves(w, ThenWith(w, p, h1, h2))
  {
    Async.PushAppends(w.sched, NotifyTask(p));
  }

  lemma AdoptPromiseEvolves(w: World, p: PromiseId, q: PromiseId)
    requires WF(w)
    ensures WF(AdoptPromise(w, p, q)) && Evolves(w, AdoptPromise(w, p, q))
  {
    var w1 := NewGuard(w, p);
    ThenWithEvolves(w1, q, AdoptFulfil(w.nextGuard), AdoptReject(w.nextGuard));
    EvolvesTrans(w, w1, AdoptPromise(w, p, q));
  }

  lemma CatchAdoptionEvolves(r: Outcome, p: PromiseId, g: GuardId)
    requires WF(r.w)
    ensures WF(CatchAdoption(r, p, g).w) && Evolves(r.w, CatchAdoption(r, p, g).w)
  {
    if r.c.Throw? {
      RejectEvolves(r.w, p, r.c.e);
    }
  }

  lemma MarkCalledEvolves(r: Outcome, g: GuardId)
    requires WF(r.w)
    ensures WF(MarkCalled(r, g).w) && Evolves(r.w, MarkCalled(r, g).w)
  {
  }

  /** The resolution procedure for a thenable object (src/promise.js:87-112). */
  lemma {:induction false} AdoptThenableEvolves(env: Env, w: World, p: PromiseId, x: Value, probe: ThenProbe, fuel: nat)
    requires WF(w) && p in w.promises && w.promises[p].state == Pending
    ensures var o := AdoptThenable(env, w, p, x, probe, fuel); WF(o.w) && Evolves(w, o.w)
    decreases fuel, 0, 0
  {
    match probe
    case NoThen => SettleEvolves(w, p, Resolved, x);
    case GetterThrows(e) => RejectEvolves(w, p, e);
    case ThenMethod(script) =>
      if fuel > 0 {
        CallThenEvolves(env, w, p, script, fuel - 1);
      }
  }

  /** `then.call(x, ...)` with a fresh guard, inside its `try`. */
  lemma {:induction false} CallThenEvolves(env: Env, w: World, p: PromiseId, script: seq<ThenAction>, fuel: nat)
    requires WF(w)
    ensures var g := w.nextGuard; var o := CatchAdoption(RunScript(env, NewGuard(w, p), g, script, fuel), p, g);
      WF(o.w) && Evolves(w, o.w)
    decreases fuel, 4, 0
  {
    var g := w.nextGuard;
    var w1 := NewGuard(w, p);
    var r := RunScript(env, w1, g, script, fuel);
    RunScriptEvolves(env, w1, g, script, fuel);
    EvolvesTrans(w, w1, r.w);
    CatchAdoptionEvolves(r, p, g);
    EvolvesTrans(w, r.w, CatchAdoption(r, p, g).w);
  }

  /** `promise.resolve(x)` (src/promise.js:75-117). */
  lemma {:induction false} ResolveEvolves(env: Env, w: World, p: PromiseId, x: Value, fuel: nat)
    requires WF(w)
    ensures var o := Resolve(env, w, p, x, fuel); WF(o.w) && Evolves(w, o.w)
    decreases fuel, 1, 0
  {
    if p in w.promises && w.promises[p].state == Pending && x != Prom(p) {
      match x {
        case Prom(q) => AdoptPromiseEvolves(w, p, q);
        case Obj(obj) => AdoptThenableEvolves(env, w, p, x, env.objThen(obj), fuel);
        case Fun(f) =>
          match env.funThen(f) {
            case GetterThrows(e) => RejectEvolves(w, p, e);
            case _ => SettleEvolves(w, p, Resolved, x);
          }
        case _ => SettleEvolves(w, p, Resolved, x);
      }
    }
  }

  /** A foreign `then` calling the guarded callbacks. */
  lemma {:induction false} RunScriptEvolves(env: Env, w: World, g: GuardId, script: seq<ThenAction>, fuel: nat)
    requires WF(w)
    ensures var o := RunScript(env, w, g, script, fuel); WF(o.w) && Evolves(w, o.w)
    decreases fuel, 3, |script|
  {
    if script != [] {
      var r :=
        match script[0]
        case FulfilCb(v) => Invoke(env, w, AdoptFulfil(g), v, fuel)
        case RejectCb(v) => Invoke(env, w, AdoptReject(g), v, fuel)
        case Raise(e) => Outcome(w, Throw(e));
      match script[0] {
        case FulfilCb(v) => InvokeEvolves(env, w, AdoptFulfil(g), v, fuel);
        case RejectCb(v) => InvokeEvolves(env, w, AdoptReject(g), v, fuel);
        case Raise(e) =>
      }
      if r.c.Return? {
        RunScriptEvolves(env, r.w, g, script[1..], fuel);
        EvolvesTrans(w, r.w, RunScript(env, r.w, g, script[1..], fuel).w);
      }
    }
  }

  /** Calling any handler the library stores. */
  lemma {:induction false} InvokeEvolves(env: Env, w: World, h: Handler, v: Value, fuel: nat)
    requires WF(w)
    ensures var o := Invoke(env, w, h, v, fuel); WF(o.w) && Evolves(w, o.w)
    decreases fuel, 2, 0
  {
    match h
    case NoHandler =>
    case UserFn(f) =>
    case AdoptFulfil(g) =>
      if g in w.guards && !w.guards[g].called {
        var r := Resolve(env, w, w.guards[g].target, v, fuel);
        ResolveEvolves(env, w, w.guards[g].target, v, fuel);
        MarkCalledEvolves(r, g);
        EvolvesTrans(w, r.w, MarkCalled(r, g).w);
      }
    case AdoptReject(g) =>
      if g in w.guards && !w.guards[g].called {
        var r := Reject(w, w.guards[g].target, v);
        RejectEvolves(w, w.guards[g].target, v);
        MarkCalledEvolves(r, g);
        EvolvesTrans(w, r.w, MarkCalled(r, g).w);
      }
    case AllSlot(a, i) =>
      if a in w.alls {
        var st := FillSlot(w.alls[a], i, v);
        var w1 := w.(alls := w.alls[a := st]);
        assert Evolves(w, w1);
        if st.count == st.length {
          ResolveEvolves(env, w1, st.promise, Arr(st.result), fuel);
          EvolvesTrans(w, w1, Resolve(env, w1, st.promise, Arr(st.result), fuel).w);
        }
      }
    case SettleFulfil(q) => ResolveEvolves(env, w, q, v, fuel);
    case SettleReject(q) => RejectEvolves(w, q, v);
  }

  /** One reaction of a settled promise (src/promise.js:152-174). */
  lemma DispatchEvolves(env: Env, w: World, p: PromiseId, rx: Reaction, fuel: nat)
    requires WF(w)
    ensures var o := Dispatch(env, w, p, rx, fuel); WF(o.w) && Evolves(w, o.w)
  {
    if p in w.promises {
      var ps := w.promises[p];
      var h := if ps.state == Resolved then rx.onResolved else rx.onRejected;
      var r := React(env, w, ps, rx, fuel);
      if ps.state != Pending {
        if !h.NoHandler? {
          var i := Invoke(env, w, h, ps.value, fuel);
          InvokeEvolves(env, w, h, ps.value, fuel);
          if i.c.Return? {
            ResolveEvolves(env, i.w, rx.downstream, i.c.v, fuel);
            EvolvesTrans(w, i.w, r.w);
          }
        } else if ps.state == Resolved {
          ResolveEvolves(env, w, rx.downstream, ps.value, fuel);
        } else {
          RejectEvolves(w, rx.downstream, ps.value);
        }
      }
      if r.c.Throw? {
        RejectEvolves(r.w, rx.downstream, r.c.e);
        EvolvesTrans(w, r.w, RejectOnThrow(r, rx.downstream).w);
      }
    }
  }

  /** One turn of the notify loop: shift a reaction off `deferred` and dispatch it. */
  lemma NotifyTurnEvolves(env: Env, w: World, p: PromiseId, fuel: nat)
    requires WF(w) && p in w.promises && w.promises[p].deferred != []
    ensures var r := Dispatch(env, PopReaction(w, p), p, w.promises[p].deferred[0], fuel);
      WF(r.w) && Evolves(w, r.w)
  {
    var w1 := PopReaction(w, p);
    assert Evolves(w, w1);
    DispatchEvolves(env, w1, p, w.promises[p].deferred[0], fuel);
    EvolvesTrans(w, w1, Dispatch(env, w1, p, w.promises[p].deferred[0], fuel).w);
  }

  /** The notify loop (src/promise.js:151-175). */
  lemma {:induction false} NotifyLoopEvolves(env: Env, w: World, p: PromiseId, fuel: nat)
    requires WF(w)
    ensures var o := NotifyLoop(env, w, p, fuel); WF(o.w) && Evolves(w, o.w)
    decreases fuel
  {
    if p in w.promises && w.promises[p].deferred != [] && fuel > 0 {
      var r := Dispatch(env, PopReaction(w, p), p, w.promises[p].deferred[0], fuel - 1);
      NotifyTurnEvolves(env, w, p, fuel - 1);
      if r.c.Return? {
        NotifyLoopEvolves(env, r.w, p, fuel - 1);
        EvolvesTrans(w, r.w, NotifyLoop(env, r.w, p, fuel - 1).w);
      }
    }
  }

  /** A notify task that returns normally has run every reaction of its promise,
      including those that the reactions themselves queued (src/promise.js:151). */
  lemma {:induction false} NotifyLoopDrains(env: Env, w: World, p: PromiseId, fuel: nat)
    requires WF(w) && p in w.promises
    ensures var o := NotifyLoop(env, w, p, fuel); o.c.Return? ==> p in o.w.promises && o.w.promises[p].deferred == []
    decreases fuel
  {
    if w.promises[p].deferred != [] && fuel > 0 {
      var r := Dispatch(env, PopReaction(w, p), p, w.promises[p].deferred[0], fuel - 1);
      NotifyTurnEvolves(env, w, p, fuel - 1);
      if r.c.Return? {
        NotifyLoopDrains(env, r.w, p, fuel - 1);
      }
    }
  }

  lemma RunTaskEvolves(env: Env, w: World, t: Task, fuel: nat)
    requires WF(w)
    ensures var o := RunTask(env, w, t, fuel); WF(o.w) && Evolves(w, o.w)
  {
    NotifyLoopEvolves(env, w, t.p, fuel);
  }

  /** A task only appends to the queue; in particular the task itself stays at its head. */
  lemma RunTaskAppends(env: Env, w: World, t: Task, fuel: nat)
    requires WF(w)
    ensures var o := RunTask(env, w, t, fuel); WF(o.w) && w.sched.tasks <= o.w.sched.tasks
    ensures w.sched.tasks != [] ==> RunTask(env, w, t, fuel).w.sched.requests == w.sched.requests
  {
    RunTaskEvolves(env, w, t, fuel);
  }

  /** `lang.async.run` (src/async.js:25-30) runs the queue in FIFO order: the queue it
      started with is a prefix of the tasks it completed followed by those still queued.
      Tasks queued while it runs go behind and call no backend hook, since the running
      task stays at the head until it returns. */
  lemma {:induction false} RunKeepsOrder(env: Env, w: World, fuel: nat)
    requires WF(w)
    ensures var o := Run(env, w, fuel); WF(o.w) && w.sched.tasks <= o.trace + o.w.sched.tasks
    ensures Run(env, w, fuel).w.sched.requests == w.sched.requests
    decreases fuel
  {
    if w.sched.tasks != [] && fuel > 0 {
      var t := w.sched.tasks[0];
      var r := RunTask(env, w, t, fuel - 1);
      RunTaskAppends(env, w, t, fuel - 1);
      if r.c.Return? {
        var w1 := r.w.(sched := Async.Shifted(r.w.sched));
        var rest := Run(env, w1, fuel - 1);
        RunKeepsOrder(env, w1, fuel - 1);
        Async.ShiftedPrefix(w.sched.tasks, r.w.sched.tasks, rest.trace, rest.w.sched.tasks);
      }
    }
  }

  lemma RunTaskKeepsSettled(env: Env, w: World, t: Task, fuel: nat)
    requires WF(w)
    ensures var o := RunTask(env, w, t, fuel); WF(o.w) && HeapEvolves(w, o.w)
  {
    RunTaskEvolves(env, w, t, fuel);
  }

  /** `lang.async.run` (src/async.js:25-30) never unsettles a promise, re-arms a fired
      guard or forgets anything in the heap, however it ends. */
  lemma {:induction false} RunKeepsSettled(env: Env, w: World, fuel: nat)
    requires WF(w)
    ensures var o := Run(env, w, fuel); WF(o.w) && HeapEvolves(w, o.w)
    decreases fuel
  {
    if w.sched.tasks != [] && fuel > 0 {
      var t := w.sched.tasks[0];
      var r := RunTask(env, w, t, fuel - 1);
      RunTaskKeepsSettled(env, w, t, fuel - 1);
      if r.c.Return? {
        var w1 := r.w.(sched := Async.Shifted(r.w.sched));
        assert WF(w1) && HeapEvolves(w, w1);
        assert Run(env, w, fuel).w == Run(env, w1, fuel - 1).w;
        RunKeepsSettled(env, w1, fuel - 1);
        HeapEvolvesTrans(w, w1, Run(env, w1, fuel - 1).w);
      }
    }
  }

  lemma {:induction false} RunExecutorEvolves(env: Env, w: World, p: PromiseId, exec: seq<ExecStep>, fuel: nat)
    requires WF(w)
    ensures var o := RunExecutor(env, w, p, exec, fuel); WF(o.w) && Evolves(w, o.w)
    decreases |exec|
  {
    if exec != [] {
      var r :=
        match exec[0]
        case ExecResolve(x) => Resolve(env, w, p, x, fuel)
        case ExecReject(e) => Reject(w, p, e)
        case ExecThrow(e) => Outcome(w, Throw(e));
      match exec[0] {
        case ExecResolve(x) => ResolveEvolves(env, w, p, x, fuel);
        case ExecReject(e) => RejectEvolves(w, p, e);
        case ExecThrow(e) =>
      }
      if r.c.Return? {
        RunExecutorEvolves(env, r.w, p, exec[1..], fuel);
        EvolvesTrans(w, r.w, RunExecutor(env, r.w, p, exec[1..], fuel).w);
      }
    }
  }

  /** `new Promise(executor)` (src/promise.js:14-34) allocates the promise it returns. */
  lemma ConstructEvolves(env: Env, w: World, exec: seq<ExecStep>, fuel: nat)
    requires WF(w)
    ensures var o := Construct(env, w, exec, fuel);
      WF(o.w) && Evolves(w, o.w) && w.nextPromise in o.w.promises && w.nextPromise !in w.promises
  {
    var p := w.nextPromise;
    var w0 := NewPending(w);
    var r := RunExecutor(env, w0, p, exec, fuel);
    RunExecutorEvolves(env, w0, p, exec, fuel);
    EvolvesTrans(w, w0, r.w);
    if r.c.Throw? {
      RejectEvolves(r.w, p, r.c.e);
      EvolvesTrans(w, r.w, RejectOnThrow(r, p).w);
    }
  }

  lemma {:induction false} AllLoopEvolves(env: Env, w: World, a: PromiseId, aid: AllId, items: seq<Value>, i: nat, fuel: nat)
    requires WF(w) && i <= |items|
    ensures var o := AllLoop(env, w, a, aid, items, i, fuel); WF(o.w) && Evolves(w, o.w)
    decreases |items| - i
  {
    if i < |items| {
      var q := w.nextPromise;
      var r := Construct(env, w, [ExecResolve(items[i])], fuel);
      ConstructEvolves(env, w, [ExecResolve(items[i])], fuel);
      if r.c.Return? {
        var w1 := ThenWith(r.w, q, AllSlot(aid, i), SettleReject(a));
        ThenWithEvolves(r.w, q, AllSlot(aid, i), SettleReject(a));
        EvolvesTrans(w, r.w, w1);
        AllLoopEvolves(env, w1, a, aid, items, i + 1, fuel);
        EvolvesTrans(w, w1, AllLoop(env, w1, a, aid, items, i + 1, fuel).w);
      }
    }
  }

  /** The executor of `all` (src/promise.js:208-228). */
  lemma AllExecutorEvolves(env: Env, w: World, a: PromiseId, aid: AllId, items: seq<Value>, fuel: nat)
    requires WF(w)
    ensures var o := AllExecutor(env, w, a, aid, items, fuel); WF(o.w) && Evolves(w, o.w)
  {
    var r0 := if |items| == 0 then Resolve(env, w, a, Arr([]), fuel) else Outcome(w, Normal);
    if |items| == 0 {
      ResolveEvolves(env, w, a, Arr([]), fuel);
    }
    if r0.c.Return? {
      AllLoopEvolves(env, r0.w, a, aid, items, 0, fuel);
      EvolvesTrans(w, r0.w, AllLoop(env, r0.w, a, aid, items, 0, fuel).w);
    }
  }

  /** `Promise.all(iterable)` (src/promise.js:206-230). */
  lemma AllEvolves(env: Env, w: World, items: seq<Value>, fuel: nat)
    requires WF(w)
    ensures var o := All(env, w, items, fuel); WF(o.w) && Evolves(w, o.w) && w.nextPromise in o.w.promises
  {
    var a := w.nextPromise;
    var w1 := NewAll(NewPending(w), a, |items|);
    assert Evolves(w, w1);
    var r := AllExecutor(env, w1, a, w.nextAll, items, fuel);
    AllExecutorEvolves(env, w1, a, w.nextAll, items, fuel);
    EvolvesTrans(w, w1, r.w);
    if r.c.Throw? {
      RejectEvolves(r.w, a, r.c.e);
      EvolvesTrans(w, r.w, RejectOnThrow(r, a).w);
    }
  }

  lemma {:induction false} RaceLoopEvolves(env: Env, w: World, a: PromiseId, items: seq<Value>, i: nat, fuel: nat)
    requires WF(w) && i <= |items|
    ensures var o := RaceLoop(env, w, a, items, i, fuel); WF(o.w) && Evolves(w, o.w)
    decreases |items| - i
  {
    if i < |items| {
      var q := w.nextPromise;
      var r := Construct(env, w, [ExecResolve(items[i])], fuel);
      ConstructEvolves(env, w, [ExecResolve(items[i])], fuel);
      if r.c.Return? {
        var w1 := ThenWith(r.w, q, SettleFulfil(a), SettleReject(a));
        ThenWithEvolves(r.w, q, SettleFulfil(a), SettleReject(a));
        EvolvesTrans(w, r.w, w1);
        RaceLoopEvolves(env, w1, a, items, i + 1, fuel);
        EvolvesTrans(w, w1, RaceLoop(env, w1, a, items, i + 1, fuel).w);
      }
    }
  }

  /** `Promise.race(iterable)` (src/promise.js:236-242). */
  lemma RaceEvolves(env: Env, w: World, items: seq<Value>, fuel: nat)
    requires WF(w)
    ensures var o := Race(env, w, items, fuel); WF(o.w) && Evolves(w, o.w) && w.nextPromise in o.w.promises
  {
    var a := w.nextPromise;
    var w0 := NewPending(w);
    var r := RaceLoop(env, w0, a, items, 0, fuel);
    RaceLoopEvolves(env, w0, a, items, 0, fuel);
    EvolvesTrans(w, w0, r.w);
    if r.c.Throw? {
      RejectEvolves(r.w, a, r.c.e);
      EvolvesTrans(w, r.w, RejectOnThrow(r, a).w);
    }
  }
}
