/** How lang.Promise behaves, operation by operation, proved about the functions of
    PromiseSpec: the guards of `resolve`/`reject`, adoption of promises and thenables,
    `then`, the dispatch of reactions, the drain of the queue, `all` and `race`. */
module PromiseLaws {
  import opened PromiseTypes
  import opened PromiseSpec
  import opened PromiseProps
  import Async

  /** A value `resolve` stores as it is: neither a promise nor an object or function
      whose `then` it would read. */
  predicate Plain(v: Value) {
    v.Undefined? || v.Null? || v.Prim? || v.Arr? || v.TypeError?
  }

  // ---------------------------------------------------------------------------------
  // resolve and reject (src/promise.js:75-140)
  // ---------------------------------------------------------------------------------

  /** A promise that is no longer pending ignores both `resolve` and `reject`. */
  lemma SettledIgnoresSettling(env: Env, w: World, p: PromiseId, v: Value, fuel: nat)
    requires p in w.promises && w.promises[p].state != Pending
    ensures Resolve(env, w, p, v, fuel) == Outcome(w, Normal)
    ensures Reject(w, p, v) == Outcome(w, Normal)
  {
  }

  /** Settling a pending promise with itself throws a TypeError and changes nothing. */
  lemma SelfSettlingThrows(env: Env, w: World, p: PromiseId, fuel: nat)
    requires p in w.promises && w.promises[p].state == Pending
    ensures Resolve(env, w, p, Prom(p), fuel) == Outcome(w, Throw(TypeError))
    ensures Reject(w, p, Prom(p)) == Outcome(w, Throw(TypeError))
  {
  }

  /** Resolving with a plain value fulfils the promise with it, keeps its reactions and
      queues exactly one notify task behind those already queued. */
  lemma ResolvePlainFulfils(env: Env, w: World, p: PromiseId, x: Value, fuel: nat)
    requires p in w.promises && w.promises[p].state == Pending && Plain(x)
    ensures var o := Resolve(env, w, p, x, fuel);
      && o.c == Normal
      && o.w.promises == w.promises[p := PState(Resolved, x, w.promises[p].deferred)]
      && o.w.sched.tasks == w.sched.tasks + [NotifyTask(p)]
      && o.w.guards == w.guards && o.w.alls == w.alls
  {
  }

  /** Rejecting with any reason other than the promise itself rejects it. */
  lemma RejectRejects(w: World, p: PromiseId, r: Value)
    requires p in w.promises && w.promises[p].state == Pending && r != Prom(p)
    ensures var o := Reject(w, p, r);
      && o.c == Normal
      && o.w.promises == w.promises[p := PState(Rejected, r, w.promises[p].deferred)]
      && o.w.sched.tasks == w.sched.tasks + [NotifyTask(p)]
  {
  }

  /** A function is never adopted: it fulfils the promise unless reading its `then`
      throws, in which case that exception rejects the promise. */
  lemma ResolveFunction(env: Env, w: World, p: PromiseId, f: FnId, fuel: nat)
    requires p in w.promises && w.promises[p].state == Pending
    requires env.funThen(f).GetterThrows? ==> env.funThen(f).e != Prom(p)
    ensures var o := Resolve(env, w, p, Fun(f), fuel);
      && o.c == Normal
      && p in o.w.promises
      && o.w.promises[p].state == (if env.funThen(f).GetterThrows? then Rejected else Resolved)
      && o.w.promises[p].value == (if env.funThen(f).GetterThrows? then env.funThen(f).e else Fun(f))
  {
  }

  /** Resolving with another promise `q` leaves `p` pending and subscribes the two
      guarded callbacks of a fresh, unfired guard for `p` to `q`. */
  lemma ResolveAdoptsPromise(env: Env, w: World, p: PromiseId, q: PromiseId, fuel: nat)
    requires WF(w) && p in w.promises && w.promises[p].state == Pending && q != p && q in w.promises
    ensures var o := Resolve(env, w, p, Prom(q), fuel); var g := w.nextGuard;
      && o.c == Normal
      && o.w.promises[p].state == Pending
      && o.w.guards == w.guards[g := Guard(p, false)]
      && o.w.promises[q].deferred == w.promises[q].deferred + [Reaction(AdoptFulfil(g), AdoptReject(g), w.nextPromise)]
      && o.w.sched.tasks == w.sched.tasks + [NotifyTask(q)]
  {
    assert w.nextPromise != q && w.nextPromise != p;
  }

  // ---------------------------------------------------------------------------------
  // Adoption of thenables: the `called` guard (src/promise.js:87-111)
  // ---------------------------------------------------------------------------------

  /** Once a guard has fired, whatever else the foreign `then` does with the two
      callbacks changes nothing; only an exception of its own gets out. */
  lemma {:induction false} FiredGuardIsInert(env: Env, w: World, g: GuardId, script: seq<ThenAction>, fuel: nat)
    requires g in w.guards && w.guards[g].called
    ensures var o := RunScript(env, w, g, script, fuel);
      o.w == w && (o.c == Normal || (o.c.Throw? && Raise(o.c.e) in script))
    decreases |script|
  {
    if script != [] {
      match script[0] {
        case FulfilCb(v) =>
        case RejectCb(v) =>
        case Raise(e) =>
      }
      if !script[0].Raise? {
        FiredGuardIsInert(env, w, g, script[1..], fuel);
        var o := RunScript(env, w, g, script[1..], fuel);
        if o.c.Throw? {
          assert script == [script[0]] + script[1..];
        }
      }
    }
  }

  /** The first callback wins: a thenable that fulfils with a plain value and then throws
      leaves the promise fulfilled with that value. */
  lemma FulfilThenThrowFulfils(env: Env, w: World, p: PromiseId, o: ObjId, v: Value, e: Value, fuel: nat)
    requires WF(w) && p in w.promises && w.promises[p].state == Pending && Plain(v) && fuel > 0
    requires env.objThen(o) == ThenMethod([FulfilCb(v), Raise(e)])
    ensures var r := Resolve(env, w, p, Obj(o), fuel);
      r.c == Normal && p in r.w.promises && r.w.promises[p].state == Resolved && r.w.promises[p].value == v
  {
    var g := w.nextGuard;
    var w1 := NewGuard(w, p);
    ResolvePlainFulfils(env, w1, p, v, fuel - 1);
    var r1 := Invoke(env, w1, AdoptFulfil(g), v, fuel - 1);
    assert g in r1.w.guards && r1.w.guards[g].called;
    assert r1.w.promises[p] == PState(Resolved, v, w.promises[p].deferred);
    FiredGuardIsInert(env, r1.w, g, [Raise(e)], fuel - 1);
    assert RunScript(env, w1, g, [FulfilCb(v), Raise(e)], fuel - 1) == RunScript(env, r1.w, g, [Raise(e)], fuel - 1);
  }

  /** A thenable that synchronously fulfils a promise with the promise itself makes the
      inner `resolve` throw before `called` is set, so the `catch` rejects the promise
      with that TypeError. */
  lemma ThenableSelfFulfilRejects(env: Env, w: World, p: PromiseId, o: ObjId, fuel: nat)
    requires p in w.promises && w.promises[p].state == Pending && fuel > 0
    requires env.objThen(o) == ThenMethod([FulfilCb(Prom(p))])
    ensures var r := Resolve(env, w, p, Obj(o), fuel);
      r.c == Normal && p in r.w.promises && r.w.promises[p].state == Rejected && r.w.promises[p].value == TypeError
  {
    var g := w.nextGuard;
    var w1 := NewGuard(w, p);
    var inner := Resolve(env, w1, p, Prom(p), fuel - 1);
    assert inner == Outcome(w1, Throw(TypeError));
    var r1 := Invoke(env, w1, AdoptFulfil(g), Prom(p), fuel - 1);
    assert r1 == inner;
    assert RunScript(env, w1, g, [FulfilCb(Prom(p))], fuel - 1) == r1;
    assert !w1.guards[g].called;
  }

  /** An exception from reading or calling `then` rejects the promise unless a callback
      has already fired. */
  lemma ThenableThrowRejects(env: Env, w: World, p: PromiseId, o: ObjId, e: Value, fuel: nat)
    requires p in w.promises && w.promises[p].state == Pending && e != Prom(p) && fuel > 0
    requires env.objThen(o) == GetterThrows(e) || env.objThen(o) == ThenMethod([Raise(e)])
    ensures var r := Resolve(env, w, p, Obj(o), fuel);
      r.c == Normal && p in r.w.promises && r.w.promises[p].state == Rejected && r.w.promises[p].value == e
  {
    if env.objThen(o).ThenMethod? {
      var g := w.nextGuard;
      var w1 := NewGuard(w, p);
      assert RunScript(env, w1, g, [Raise(e)], fuel - 1) == Outcome(w1, Throw(e));
      assert !w1.guards[g].called;
    }
  }

  // ---------------------------------------------------------------------------------
  // then (src/promise.js:193-200) and the dispatch of reactions (src/promise.js:146-178)
  // ---------------------------------------------------------------------------------

  /** `then` returns a fresh pending promise, appends exactly one reaction behind those
      already registered on `p`, leaves `p`'s state alone and queues one notify task. */
  lemma ThenAppendsReaction(w: World, p: PromiseId, h1: Handler, h2: Handler)
    requires WF(w) && p in w.promises
    ensures var w' := ThenWith(w, p, h1, h2); var d := w.nextPromise;
      && d !in w.promises
      && w'.nextPromise == d + 1
      && w'.promises == w.promises[p := w.promises[p].(deferred := w.promises[p].deferred + [Reaction(h1, h2, d)])]
                                  [d := PState(Pending, Undefined, [])]
      && w'.sched.tasks == w.sched.tasks + [NotifyTask(p)]
  {
    assert w.nextPromise != p;
  }

  /** A notify task of a promise that is still pending does nothing (src/promise.js:150). */
  lemma PendingTaskIsNoop(env: Env, w: World, p: PromiseId, fuel: nat)
    requires p in w.promises && w.promises[p].state == Pending
    ensures RunTask(env, w, NotifyTask(p), fuel) == Outcome(w, Normal)
  {
  }

  /** What one reaction of a settled promise `p` does to the promise `d` its `then`
      returned: a handler's plain result fulfils `d`, a handler's exception rejects `d`,
      and without a handler `d` takes on `p`'s state and value. */
  lemma DispatchSettlesDownstream(env: Env, w: World, p: PromiseId, rx: Reaction, fuel: nat)
    requires p in w.promises && w.promises[p].state != Pending
    requires rx.downstream in w.promises && w.promises[rx.downstream].state == Pending && rx.downstream != p
    ensures var ps := w.promises[p]; var d := rx.downstream;
      var h := if ps.state == Resolved then rx.onResolved else rx.onRejected;
      var o := Dispatch(env, w, p, rx, fuel);
      && (h.UserFn? && env.call(h.f, ps.value).Return? && Plain(env.call(h.f, ps.value).v) ==>
            o.c == Normal && d in o.w.promises && o.w.promises[d].state == Resolved && o.w.promises[d].value == env.call(h.f, ps.value).v)
      && (h.UserFn? && env.call(h.f, ps.value).Throw? && env.call(h.f, ps.value).e != Prom(d) ==>
            o.c == Normal && d in o.w.promises && o.w.promises[d].state == Rejected && o.w.promises[d].value == env.call(h.f, ps.value).e)
      && (h.NoHandler? && ps.state == Resolved && Plain(ps.value) ==>
            o.c == Normal && d in o.w.promises && o.w.promises[d].state == Resolved && o.w.promises[d].value == ps.value)
      && (h.NoHandler? && ps.state == Rejected && ps.value != Prom(d) ==>
            o.c == Normal && d in o.w.promises && o.w.promises[d].state == Rejected && o.w.promises[d].value == ps.value)
  {
    var ps := w.promises[p];
    var d := rx.downstream;
    var h := if ps.state == Resolved then rx.onResolved else rx.onRejected;
    if h.UserFn? && env.call(h.f, ps.value).Return? && Plain(env.call(h.f, ps.value).v) {
      ResolvePlainFulfils(env, w, d, env.call(h.f, ps.value).v, fuel);
    }
    if h.NoHandler? && ps.state == Resolved && Plain(ps.value) {
      ResolvePlainFulfils(env, w, d, ps.value, fuel);
    }
  }

  /** A handler that throws the very promise its `then` returned makes the `reject(e)` of
      the `catch` throw a TypeError, which leaves the notify task; that promise stays
      pending. */
  lemma SelfThrowingHandlerEscapes(env: Env, w: World, p: PromiseId, f: FnId, d: PromiseId, fuel: nat)
    requires p in w.promises && w.promises[p].state == Resolved
    requires d in w.promises && w.promises[d].state == Pending && d != p
    requires env.call(f, w.promises[p].value) == Throw(Prom(d))
    ensures Dispatch(env, w, p, Reaction(UserFn(f), NoHandler, d), fuel) == Outcome(w, Throw(TypeError))
  {
  }

  /** The handler a reaction uses for a promise settled in state `s`. */
  function Chosen(s: State, rx: Reaction): Handler {
    if s == Resolved then rx.onResolved else rx.onRejected
  }

  /** A reaction that settles its downstream promise directly when dispatched for a promise
      settled in state `s` with value `v`: its handler returns a plain value or throws
      something other than that promise, or there is no handler and the value is passed on. */
  predicate SettlesDirectly(env: Env, s: State, v: Value, rx: Reaction) {
    var h := Chosen(s, rx);
    && s != Pending
    && if h.UserFn? then
         || (env.call(h.f, v).Return? && Plain(env.call(h.f, v).v))
         || (env.call(h.f, v).Throw? && env.call(h.f, v).e != Prom(rx.downstream))
       else
         h.NoHandler? && (if s == Resolved then Plain(v) else v != Prom(rx.downstream))
  }

  /** The state such a reaction gives its downstream promise. */
  function SettledState(env: Env, s: State, v: Value, rx: Reaction): State {
    var h := Chosen(s, rx);
    if h.UserFn? then (if env.call(h.f, v).Return? then Resolved else Rejected) else s
  }

  /** The value such a reaction gives its downstream promise. */
  function SettledValue(env: Env, s: State, v: Value, rx: Reaction): Value {
    var h := Chosen(s, rx);
    if !h.UserFn? then v
    else match env.call(h.f, v)
      case Return(x) => x
      case Throw(e) => e
      case OutOfFuel => v
  }

  /** One reaction that settles directly: the downstream promise takes its state and value
      and gets its notify task; nothing else changes. */
  lemma DispatchSettlesDirectly(env: Env, w: World, p: PromiseId, rx: Reaction, fuel: nat)
    requires p in w.promises && rx.downstream in w.promises && rx.downstream != p
    requires w.promises[rx.downstream].state == Pending
    requires SettlesDirectly(env, w.promises[p].state, w.promises[p].value, rx)
    ensures var ps := w.promises[p];
      Dispatch(env, w, p, rx, fuel) ==
      Outcome(Settle(w, rx.downstream, SettledState(env, ps.state, ps.value, rx), SettledValue(env, ps.state, ps.value, rx)), Normal)
  {
  }

  /** The notify tasks of the downstream promises of `rs`, in order. */
  function NotifyTasks(rs: seq<Reaction>): (ts: seq<Task>)
    ensures |ts| == |rs|
    ensures forall i :: 0 <= i < |rs| ==> ts[i] == NotifyTask(rs[i].downstream)
  {
    if rs == [] then [] else [NotifyTask(rs[0].downstream)] + NotifyTasks(rs[1..])
  }

  /** Every reaction in `rs` settles directly, for a promise in state `s` with value `v`. */
  predicate AllSettleDirectly(env: Env, s: State, v: Value, rs: seq<Reaction>) {
    forall i {:trigger SettlesDirectly(env, s, v, rs[i])} :: 0 <= i < |rs| ==> SettlesDirectly(env, s, v, rs[i])
  }

  /** In world `o`, the downstream promise of `rx` holds the state and value that `rx` gives
      it for a promise settled in state `s` with value `v`. */
  predicate SettledBy(env: Env, s: State, v: Value, rx: Reaction, o: World) {
    && rx.downstream in o.promises
    && o.promises[rx.downstream].state == SettledState(env, s, v, rx)
    && o.promises[rx.downstream].value == SettledValue(env, s, v, rx)
  }

  /** Every reaction of `p` settles directly a distinct pending promise other than `p`. */
  predicate ReactionsSettleDirectly(env: Env, w: World, p: PromiseId)
    requires p in w.promises
  {
    var ps := w.promises[p];
    var rs := ps.deferred;
    && AllSettleDirectly(env, ps.state, ps.value, rs)
    && (forall i :: 0 <= i < |rs| ==>
          && rs[i].downstream in w.promises && rs[i].downstream != p
          && w.promises[rs[i].downstream].state == Pending)
    && (forall i, j :: 0 <= i < j < |rs| ==> rs[i].downstream != rs[j].downstream)
  }

  /** One turn of the notify loop over reactions that settle directly: the first reaction
      leaves `deferred` and settles its downstream promise, whose notify task joins the
      queue, and the remaining reactions still settle directly. */
  lemma NotifyTurnSettles(env: Env, w: World, p: PromiseId, fuel: nat)
    requires WF(w) && p in w.promises && w.promises[p].state != Pending && w.promises[p].deferred != []
    requires ReactionsSettleDirectly(env, w, p)
    ensures var ps := w.promises[p]; var rs := ps.deferred;
      var r := Dispatch(env, PopReaction(w, p), p, rs[0], fuel);
      && r.c == Normal
      && WF(r.w) && p in r.w.promises && r.w.promises[p] == ps.(deferred := rs[1..])
      && ReactionsSettleDirectly(env, r.w, p)
      && r.w.sched.tasks == w.sched.tasks + [NotifyTask(rs[0].downstream)]
      && SettledBy(env, ps.state, ps.value, rs[0], r.w)
  {
    var ps := w.promises[p];
    var rs := ps.deferred;
    var d := rs[0].downstream;
    DispatchSettlesDirectly(env, PopReaction(w, p), p, rs[0], fuel);
    var r := Dispatch(env, PopReaction(w, p), p, rs[0], fuel);
    assert r.w.promises[p] == ps.(deferred := rs[1..]);
    forall i | 0 <= i < |rs[1..]|
      ensures rs[1..][i].downstream != d && rs[1..][i] == rs[i + 1]
    {
    }
  }

  /** A promise settled before a notify loop keeps its state and value through it. */
  lemma SettledStaysSettled(env: Env, w: World, p: PromiseId, d: PromiseId, fuel: nat)
    requires WF(w) && d in w.promises && w.promises[d].state != Pending
    ensures var o := NotifyLoop(env, w, p, fuel);
      d in o.w.promises && o.w.promises[d].state == w.promises[d].state && o.w.promises[d].value == w.promises[d].value
  {
    NotifyLoopEvolves(env, w, p, fuel);
  }

  /** A notify task runs the reactions of a settled promise front first, in the order they
      were registered: each settles its downstream promise, whose notify task joins the
      queue in that same order, and the loop ends with `deferred` empty. */
  lemma {:induction false} NotifyRunsReactionsInOrder(env: Env, w: World, p: PromiseId, fuel: nat)
    requires WF(w) && p in w.promises && w.promises[p].state != Pending
    requires ReactionsSettleDirectly(env, w, p)
    requires fuel > |w.promises[p].deferred|
    ensures var ps := w.promises[p]; var rs := ps.deferred; var o := NotifyLoop(env, w, p, fuel);
      && o.c == Normal
      && o.w.sched.tasks == w.sched.tasks + NotifyTasks(rs)
      && p in o.w.promises && o.w.promises[p].deferred == []
      && forall i :: 0 <= i < |rs| ==> SettledBy(env, ps.state, ps.value, rs[i], o.w)
    decreases fuel
  {
    var ps := w.promises[p];
    var rs := ps.deferred;
    if rs == [] {
      NotifyLoopStop(env, w, p, fuel);
    } else {
      var d := rs[0].downstream;
      var r := Dispatch(env, PopReaction(w, p), p, rs[0], fuel - 1);
      NotifyLoopStep(env, w, p, fuel);
      NotifyTurnSettles(env, w, p, fuel - 1);
      NotifyRunsReactionsInOrder(env, r.w, p, fuel - 1);
      SettledStaysSettled(env, r.w, p, d, fuel - 1);
      SettledInOrder(env, ps, NotifyLoop(env, r.w, p, fuel - 1).w);
      TasksInOrder(rs, w.sched.tasks, r.w.sched.tasks, NotifyLoop(env, r.w, p, fuel - 1).w.sched.tasks);
    }
  }

  /** The first reaction's downstream settled, and those of the rest: all of them are. */
  lemma SettledInOrder(env: Env, ps: PState, o: World)
    requires ps.deferred != []
    requires var rs := ps.deferred;
      && SettledBy(env, ps.state, ps.value, rs[0], o)
      && forall i :: 0 <= i < |rs[1..]| ==> SettledBy(env, ps.state, ps.value, rs[1..][i], o)
    ensures var rs := ps.deferred;
      forall i :: 0 <= i < |rs| ==> SettledBy(env, ps.state, ps.value, rs[i], o)
  {
    var rs := ps.deferred;
    forall i | 1 <= i < |rs|
      ensures SettledBy(env, ps.state, ps.value, rs[i], o)
    {
      assert rs[i] == rs[1..][i - 1];
    }
  }

  /** The first reaction's notify task, then those of the rest: the tasks of all of them. */
  lemma TasksInOrder(rs: seq<Reaction>, t0: seq<Task>, t1: seq<Task>, t2: seq<Task>)
    requires rs != [] && t1 == t0 + [NotifyTask(rs[0].downstream)] && t2 == t1 + NotifyTasks(rs[1..])
    ensures t2 == t0 + NotifyTasks(rs)
  {
    calc {
      t2;
      t0 + [NotifyTask(rs[0].downstream)] + NotifyTasks(rs[1..]);
      t0 + ([NotifyTask(rs[0].downstream)] + NotifyTasks(rs[1..]));
      t0 + NotifyTasks(rs);
    }
  }

  // ---------------------------------------------------------------------------------
  // lang.async.run (src/async.js:25-30)
  // ---------------------------------------------------------------------------------

  /** A task that throws ends `run` without shifting it: the queue is left non-empty with
      no drain on its way, and (Async.StrandedStaysStranded) no later `lang.async` call
      requests one. */
  lemma {:induction false} RunThrowStrands(env: Env, w: World, fuel: nat)
    requires WF(w)
    ensures var o := Run(env, w, fuel);
      o.c.Throw? ==> o.w.sched.tasks != [] && !o.w.sched.drainRequested
    decreases fuel
  {
    if w.sched.tasks != [] && fuel > 0 {
      var t := w.sched.tasks[0];
      var r := RunTask(env, w, t, fuel - 1);
      RunTaskAppends(env, w, t, fuel - 1);
      if r.c.Return? {
        RunThrowStrands(env, r.w.(sched := Async.Shifted(r.w.sched)), fuel - 1);
      } else {
        assert w.sched.tasks <= r.w.sched.tasks;
      }
    }
  }

  /** One such handler is enough: a drain of a queue holding only the notify task of a
      fulfilled promise with a reaction whose handler throws its own derived promise
      ends with that task stranded. */
  lemma SelfThrowingHandlerStallsQueue(env: Env, w: World, p: PromiseId, f: FnId, d: PromiseId, fuel: nat)
    requires WF(w) && fuel >= 3
    requires p in w.promises && w.promises[p].state == Resolved
    requires w.promises[p].deferred == [Reaction(UserFn(f), NoHandler, d)]
    requires d in w.promises && w.promises[d].state == Pending && d != p
    requires env.call(f, w.promises[p].value) == Throw(Prom(d))
    requires w.sched.tasks == [NotifyTask(p)]
    ensures var o := Run(env, w, fuel);
      && o.c == Throw(TypeError) && o.trace == []
      && o.w.sched.tasks == [NotifyTask(p)] && !o.w.sched.drainRequested
      && o.w.promises[d].state == Pending
  {
    var w1 := PopReaction(w, p);
    SelfThrowingHandlerEscapes(env, w1, p, f, d, fuel - 2);
    assert NotifyLoop(env, w, p, fuel - 1) == Outcome(w1, Throw(TypeError));
  }

  // ---------------------------------------------------------------------------------
  // The constructor (src/promise.js:14-34), Promise.resolve and Promise.reject
  // ---------------------------------------------------------------------------------

  /** Once its promise is settled, the rest of an executor changes nothing: its calls
      are ignored and only an exception of its own gets out. */
  lemma {:induction false} SettledExecutorIsInert(env: Env, w: World, p: PromiseId, exec: seq<ExecStep>, fuel: nat)
    requires p in w.promises && w.promises[p].state != Pending
    ensures var o := RunExecutor(env, w, p, exec, fuel); o.w == w && (o.c == Normal || o.c.Throw?)
    decreases |exec|
  {
    if exec != [] {
      match exec[0] {
        case ExecResolve(x) =>
        case ExecReject(e) =>
        case ExecThrow(e) =>
      }
      if !exec[0].ExecThrow? {
        SettledExecutorIsInert(env, w, p, exec[1..], fuel);
      }
    }
  }

  /** The first settlement made by an executor is final: once it has fulfilled its promise
      with a plain value, neither later calls nor an exception change it. */
  lemma ExecutorFirstSettlementWins(env: Env, w: World, v: Value, rest: seq<ExecStep>, fuel: nat)
    requires Plain(v)
    ensures var o := Construct(env, w, [ExecResolve(v)] + rest, fuel); var p := w.nextPromise;
      && o.c == Normal && p in o.w.promises
      && o.w.promises[p].state == Resolved && o.w.promises[p].value == v
  {
    var p := w.nextPromise;
    var w0 := NewPending(w);
    var exec := [ExecResolve(v)] + rest;
    var r1 := Resolve(env, w0, p, v, fuel);
    ResolvePlainFulfils(env, w0, p, v, fuel);
    assert exec[1..] == rest;
    SettledExecutorIsInert(env, r1.w, p, rest, fuel);
    assert RunExecutor(env, w0, p, exec, fuel) == RunExecutor(env, r1.w, p, rest, fuel);
  }

  /** An executor that throws while its promise is still pending rejects the promise with
      the exception; when the exception is the promise itself, that rejection throws a
      TypeError out of the constructor instead. */
  lemma ExecutorThrowRejects(env: Env, w: World, exec: seq<ExecStep>, fuel: nat)
    requires var p := w.nextPromise; var r := RunExecutor(env, NewPending(w), p, exec, fuel);
      r.c.Throw? && p in r.w.promises && r.w.promises[p].state == Pending
    ensures var p := w.nextPromise; var r := RunExecutor(env, NewPending(w), p, exec, fuel);
      var o := Construct(env, w, exec, fuel);
      && (r.c.e != Prom(p) ==>
            && o.c == Normal && p in o.w.promises
            && o.w.promises[p].state == Rejected && o.w.promises[p].value == r.c.e)
      && (r.c.e == Prom(p) ==> o.c == Throw(TypeError))
  {
  }

  /** `Promise.reject(r)` returns a promise rejected with `r` (src/promise.js:53-57). */
  lemma StaticRejectRejects(env: Env, w: World, r: Value, fuel: nat)
    requires r != Prom(w.nextPromise)
    ensures var o := Construct(env, w, [ExecReject(r)], fuel); var p := w.nextPromise;
      o.c == Normal && p in o.w.promises && o.w.promises[p] == PState(Rejected, r, [])
  {
    var p := w.nextPromise;
    var w0 := NewPending(w);
    var r1 := Reject(w0, p, r);
    RejectRejects(w0, p, r);
    assert [ExecReject(r)][1..] == [];
    assert RunExecutor(env, w0, p, [ExecReject(r)], fuel) == RunExecutor(env, r1.w, p, [], fuel);
  }

  /** `Promise.resolve(x)` with a plain `x` returns a promise fulfilled with `x`
      (src/promise.js:64-68). */
  lemma StaticResolveFulfils(env: Env, w: World, x: Value, fuel: nat)
    requires Plain(x)
    ensures var o := Construct(env, w, [ExecResolve(x)], fuel); var p := w.nextPromise;
      o.c == Normal && p in o.w.promises && o.w.promises[p] == PState(Resolved, x, [])
  {
    var p := w.nextPromise;
    var w0 := NewPending(w);
    var r1 := Resolve(env, w0, p, x, fuel);
    ResolvePlainFulfils(env, w0, p, x, fuel);
    assert [ExecResolve(x)][1..] == [];
    assert RunExecutor(env, w0, p, [ExecResolve(x)], fuel) == RunExecutor(env, r1.w, p, [], fuel);
  }

  // ---------------------------------------------------------------------------------
  // Promise.all (src/promise.js:206-230) and Promise.race (src/promise.js:236-242)
  // ---------------------------------------------------------------------------------

  /** `Promise.all([])` is fulfilled at once with an empty array. */
  lemma AllOfNothing(env: Env, w: World, fuel: nat)
    ensures var o := All(env, w, [], fuel); var a := w.nextPromise;
      o.c == Normal && a in o.w.promises && o.w.promises[a].state == Resolved && o.w.promises[a].value == Arr([])
  {
    var a := w.nextPromise;
    var w1 := NewAll(NewPending(w), a, 0);
    ResolvePlainFulfils(env, w1, a, Arr([]), fuel);
  }

  /** The `resolver(i)` calls of one `all`, in the order its inputs settle. */
  function FillSlots(st: AllState, order: seq<nat>, vals: seq<Value>): AllState
    requires forall k :: 0 <= k < |order| ==> order[k] < |vals|
    decreases |order|
  {
    if order == [] then st else FillSlots(FillSlot(st, order[0], vals[order[0]]), order[1..], vals)
  }

  /** After the resolvers of the indices in `order` have run, slot `j` holds input `j`'s
      value if `j` was among them and is untouched otherwise, and `count` has grown by one
      per call. */
  lemma {:induction false} FillSlotsContents(st: AllState, order: seq<nat>, vals: seq<Value>)
    requires |st.result| == |vals| && forall k :: 0 <= k < |order| ==> order[k] < |vals|
    ensures var st' := FillSlots(st, order, vals);
      && st'.promise == st.promise && st'.length == st.length
      && st'.count == st.count + |order| && |st'.result| == |vals|
      && forall j :: 0 <= j < |vals| ==> st'.result[j] == if j in order then vals[j] else st.result[j]
    decreases |order|
  {
    if order != [] {
      var st1 := FillSlot(st, order[0], vals[order[0]]);
      FillSlotsContents(st1, order[1..], vals);
      forall j | 0 <= j < |vals|
        ensures FillSlots(st, order, vals).result[j] == if j in order then vals[j] else st.result[j]
      {
        assert j in order <==> j == order[0] || j in order[1..] by {
          assert order == [order[0]] + order[1..];
        }
      }
    }
  }

  /** Whatever order the inputs of `all` settle in, once every input has called its
      resolver once the array holds the inputs' values in input order, and `count` meets
      `iterable.length` exactly at the last call. */
  lemma AllResultInInputOrder(st: AllState, order: seq<nat>, vals: seq<Value>)
    requires st.count == 0 && st.length == |vals| && |st.result| == |vals|
    requires |order| == |vals| && forall k :: 0 <= k < |order| ==> order[k] < |vals|
    requires forall j :: 0 <= j < |vals| ==> j in order
    ensures FillSlots(st, order, vals).result == vals
    ensures FillSlots(st, order, vals).count == st.length
    ensures forall k :: 0 <= k < |order| ==> FillSlots(st, order[..k], vals).count < st.length
  {
    FillSlotsContents(st, order, vals);
    forall k | 0 <= k < |order| ensures FillSlots(st, order[..k], vals).count < st.length {
      FillSlotsContents(st, order[..k], vals);
    }
  }

  /** A `resolver(i)` call that brings `count` to `iterable.length` fulfils the promise
      of `all` with the array; any earlier call only records the value. */
  lemma AllSlotResolvesOnLast(env: Env, w: World, a: AllId, i: nat, v: Value, fuel: nat)
    requires a in w.alls && i < |w.alls[a].result|
    requires var st := w.alls[a]; st.promise in w.promises && w.promises[st.promise].state == Pending
    ensures var st := w.alls[a]; var st' := FillSlot(st, i, v); var o := Invoke(env, w, AllSlot(a, i), v, fuel);
      && o.c == Normal && st'.result == st.result[i := v]
      && o.w.alls == w.alls[a := st']
      && (st'.count == st.length ==> o.w.promises == w.promises[st.promise := w.promises[st.promise].(state := Resolved, value := Arr(st'.result))])
      && (st'.count != st.length ==> o.w.promises == w.promises)
  {
    var st := w.alls[a];
    var st' := FillSlot(st, i, v);
    if st'.count == st.length {
      ResolvePlainFulfils(env, w.(alls := w.alls[a := st']), st.promise, Arr(st'.result), fuel);
    }
  }

  /** The capabilities `race` hands to each input settle its promise only the first time
      one of them is called; every later call is a no-op. */
  lemma RaceFirstSettlementWins(env: Env, w: World, a: PromiseId, v: Value, fuel: nat)
    requires a in w.promises
    ensures w.promises[a].state != Pending ==>
      Invoke(env, w, SettleFulfil(a), v, fuel) == Outcome(w, Normal) && Invoke(env, w, SettleReject(a), v, fuel) == Outcome(w, Normal)
    ensures w.promises[a].state == Pending && Plain(v) ==>
      var o := Invoke(env, w, SettleFulfil(a), v, fuel); o.w.promises == w.promises[a := w.promises[a].(state := Resolved, value := v)]
    ensures w.promises[a].state == Pending && v != Prom(a) ==>
      var o := Invoke(env, w, SettleReject(a), v, fuel); o.w.promises == w.promises[a := w.promises[a].(state := Rejected, value := v)]
  {
    if w.promises[a].state == Pending && Plain(v) {
      ResolvePlainFulfils(env, w, a, v, fuel);
    }
  }
}
