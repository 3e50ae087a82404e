/**
 * Whole runs of the runtime, from creating promises to running the timer
 * queue: self-resolution, an executor that throws, a thenable that resolves
 * or throws, adoption of a promise that settles later, and FIFO dispatch of
 * several `then` subscriptions.
 */
module Scenarios {
  import opened Values
  import opened Semantics
  import opened Properties

  // ---------------------------------------------------------------------------
  // Unfolding the constructor for the executors used below
  // ---------------------------------------------------------------------------

  /** An executor that does nothing leaves a fresh pending promise. */
  lemma IdleExecutor(w: World)
    requires WF(w)
    ensures NewPromise(w, Executor([], Returns)) == Alloc(w)
  {
    var (w1, p) := Alloc(w);
    assert RunCalls(w1, p, Executor([], Returns), 0) == w1;
  }

  /** An executor that calls `resolve(v)` runs the resolution procedure on the fresh promise. */
  lemma ResolvingExecutor(w: World, v: Value)
    requires WF(w)
    ensures var (w1, p) := Alloc(w);
      NewPromise(w, Executor([CallResolve(v)], Returns)) == (ResolvePromise(CloseGuard(w1, p), p, v), p)
  {
    var (w1, p) := Alloc(w);
    FirstCallWins(w1, p, Executor([CallResolve(v)], Returns));
  }

  /**
   * An executor that calls `resolve(x)` with a plain `x`, or throws `x`
   * before any call: the fresh promise is settled at once and its drain task
   * is queued.
   */
  lemma SettlingExecutor(w: World, body: Executor, st: SettledState, x: Value)
    requires WF(w)
    requires || (body == Executor([CallResolve(x)], Returns) && st == Fulfilled && !x.PromiseRef? && !x.Thenable?)
             || (body == Executor([], Throws(x)) && st == Rejected)
    ensures var (r, t) := NewPromise(w, body);
      && t == w.nextId && r.nextId == w.nextId + 1
      && r.heap == w.heap[t := Rec(st, x, [], true)]
      && r.queue == w.queue + [Drain(t, st, x)]
  {
    var (w1, t) := Alloc(w);
    if body.ending.Throws? {
      assert RunCalls(w1, t, body, 0) == w1;
      assert RunExecutor(w1, t, body) == Reject(w1, t, x);
    } else {
      FirstCallWins(w1, t, body);
      ResolvePlainFulfils(w1, t, x);
    }
    var r := RunExecutor(w1, t, body);
    assert r.heap == w.heap[t := Rec(st, x, [], true)];
  }

  // ---------------------------------------------------------------------------
  // Scenarios
  // ---------------------------------------------------------------------------

  /**
   * A promise whose executor keeps its `resolve` and returns, and whose
   * `resolve` is later called with the promise itself, is rejected with the
   * TypeError.
   */
  lemma SelfSettlementRejects(w: World)
    requires WF(w)
    ensures var (w1, p) := NewPromise(w, Executor([], Returns));
      var r := Resolve(w1, p, PromiseRef(p));
      r.heap[p].state == Rejected && r.heap[p].result == SelfResolutionError
  {
    IdleExecutor(w);
  }

  /**
   * The common part of the two thenable scenarios, up to the timer queue: a
   * thenable whose `then` settles its promise `t` synchronously leaves the
   * drain task of `t` and the dispatch of the subscription by `p` queued.
   */
  lemma SettlingAfterGuard(w: World, p: PromiseId, body: Executor, st: SettledState, x: Value)
    requires WF(w) && |w.queue| == 0 && p in w.heap && w.heap[p].state == Pending
    requires || (body == Executor([CallResolve(x)], Returns) && st == Fulfilled && !x.PromiseRef? && !x.Thenable?)
             || (body == Executor([], Throws(x)) && st == Rejected)
    ensures TwoTasksQueued(ResolvePromise(w, p, Thenable(Callable(body))), p, w.nextId, st, x)
  {
    SettlingExecutor(w, body, st, x);
    AssimilationAfterGuard(w, p, body, st, x);
  }

  /** `resolvePromise` on a thenable whose `then` settles its promise `t` at once. */
  lemma AssimilationAfterGuard(w: World, p: PromiseId, body: Executor, st: SettledState, x: Value)
    requires WF(w) && |w.queue| == 0 && p in w.heap && w.heap[p].state == Pending
    requires var (r, t) := NewPromise(w, body);
      && t == w.nextId && r.nextId == w.nextId + 1
      && r.heap == w.heap[t := Rec(st, x, [], true)]
      && r.queue == [Drain(t, st, x)]
    ensures TwoTasksQueued(ResolvePromise(w, p, Thenable(Callable(body))), p, w.nextId, st, x)
  {
    AssimilateUnfolds(w, p, body);
    var (w3, t) := NewPromise(w, body);
    assert p in w3.heap && w3.heap[p] == w.heap[p] && p != t;
    SubscribingToSettled(w3, p, t, st, x);
  }

  /** The adopting subscription to an already settled `t` is queued behind t's drain task. */
  lemma SubscribingToSettled(w: World, p: PromiseId, t: PromiseId, st: SettledState, x: Value)
    requires WF(w) && p != t && p in w.heap && w.heap[p].state == Pending
    requires t in w.heap && w.heap[t] == Rec(st, x, [], true)
    requires w.queue == [Drain(t, st, x)] && w.nextId == t + 1
    ensures TwoTasksQueued(Then(w, t, TransitionTo(p, Fulfilled), TransitionTo(p, Rejected)).0, p, t, st, x)
  {
  }

  /** The `Assimilate` case of the resolution procedure. */
  lemma AssimilateUnfolds(w: World, p: PromiseId, body: Executor)
    requires WF(w)
    ensures var (w1, t) := NewPromise(w, body);
      ResolvePromise(w, p, Thenable(Callable(body))) == Then(w1, t, TransitionTo(p, Fulfilled), TransitionTo(p, Rejected)).0
  {
    assert Classify(p, Thenable(Callable(body))) == Assimilate(body);
  }

  /** After the queue has run the two tasks, `p` is settled as the thenable's promise. */
  lemma AssimilatedSettles(w: World, p: PromiseId, body: Executor, st: SettledState, x: Value)
    requires WF(w) && |w.queue| == 0 && p in w.heap && w.heap[p].state == Pending
    requires || (body == Executor([CallResolve(x)], Returns) && st == Fulfilled && !x.PromiseRef? && !x.Thenable?)
             || (body == Executor([], Throws(x)) && st == Rejected)
    ensures var s := Step(Step(ResolvePromise(w, p, Thenable(Callable(body)))));
      s.heap[p].state == st && s.heap[p].result == x
  {
    SettlingAfterGuard(w, p, body, st, x);
    TwoTasksSettle(ResolvePromise(w, p, Thenable(Callable(body))), p, w.nextId, st, x);
  }

  /**
   * `t` is settled with no callbacks left, `p` is pending, and the queue holds
   * the drain task of `t` followed by the dispatch of p's subscription to `t`.
   */
  ghost predicate TwoTasksQueued(r: World, p: PromiseId, t: PromiseId, st: SettledState, x: Value) {
    && t in r.heap && p in r.heap && r.heap[p].state == Pending
    && r.heap[t] == Rec(st, x, [], true)
    && r.queue == [Drain(t, st, x), Dispatch(Callback(TransitionTo(p, Fulfilled), TransitionTo(p, Rejected), t + 1), t)]
  }

  /** The two queued tasks, run in order, settle `p` as `t` is settled. */
  lemma TwoTasksSettle(r: World, p: PromiseId, t: PromiseId, st: SettledState, x: Value)
    requires WF(r) && p != t && TwoTasksQueued(r, p, t, st, x)
    ensures var s := Step(Step(r));
      s.heap[p].state == st && s.heap[p].result == x
  {
    var cb := Callback(TransitionTo(p, Fulfilled), TransitionTo(p, Rejected), t + 1);
    assert TaskValid(r.heap, r.queue[0]);
    var r1 := ClearCallbacks(Pop(r), t);
    assert Step(r) == HandleAll(r1, [], st, x) == r1;
    assert r1.queue == [Dispatch(cb, t)] && r1.heap[t].state == st && r1.heap[t].result == x;
    DispatchRunsOne(r1);
    AdoptedSettlementMirrors(Pop(r1), p, t + 1, st, x);
  }

  /**
   * `new Promise(resolve => resolve({ then: (res, rej) => res(x) }))` for a
   * plain `x`: once the timer queue has run two tasks the promise is
   * fulfilled with `x`.
   */
  lemma ThenableResolvesScenario(w: World, x: Value)
    requires WF(w) && |w.queue| == 0 && !x.PromiseRef? && !x.Thenable?
    ensures var thenable := Thenable(Callable(Executor([CallResolve(x)], Returns)));
      var (r, p) := NewPromise(w, Executor([CallResolve(thenable)], Returns));
      var s := Step(Step(r));
      s.heap[p].state == Fulfilled && s.heap[p].result == x
  {
    var body := Executor([CallResolve(x)], Returns);
    var (w1, p) := Alloc(w);
    var w2 := CloseGuard(w1, p);
    assert WF(w2) && |w2.queue| == 0 && p in w2.heap && w2.heap[p].state == Pending;
    ResolvingExecutor(w, Thenable(Callable(body)));
    AssimilatedSettles(w2, p, body, Fulfilled, x);
  }

  /**
   * `new Promise(resolve => resolve({ then: () => { throw err } }))`: once
   * the timer queue has run two tasks the promise is rejected with `err`.
   */
  lemma ThenableThrowsScenario(w: World, err: Value)
    requires WF(w) && |w.queue| == 0
    ensures var thenable := Thenable(Callable(Executor([], Throws(err))));
      var (r, p) := NewPromise(w, Executor([CallResolve(thenable)], Returns));
      var s := Step(Step(r));
      s.heap[p].state == Rejected && s.heap[p].result == err
  {
    var body := Executor([], Throws(err));
    var (w1, p) := Alloc(w);
    var w2 := CloseGuard(w1, p);
    assert WF(w2) && |w2.queue| == 0 && p in w2.heap && w2.heap[p].state == Pending;
    ResolvingExecutor(w, Thenable(Callable(body)));
    AssimilatedSettles(w2, p, body, Rejected, err);
  }

  /** An executor that throws before settling produces a promise rejected with the error. */
  lemma ErrorCaptureScenario(w: World, err: Value)
    requires WF(w)
    ensures var (r, p) := NewPromise(w, Executor([], Throws(err)));
      r.heap[p].state == Rejected && r.heap[p].result == err
  {
    ThrowBeforeSettlingRejects(w, Executor([], Throws(err)));
  }

  /**
   * Chained adoption: `outer` is resolved with a pending `inner`; when code
   * holding inner's `resolve` later calls it with `x`, the drain task of
   * `inner` fulfils `outer` with `x`.
   */
  lemma ChainedAdoptionScenario(w: World, x: Value)
    requires WF(w) && |w.queue| == 0 && !x.PromiseRef? && !x.Thenable?
    ensures var (w1, inner) := NewPromise(w, Executor([], Returns));
      var (w2, outer) := NewPromise(w1, Executor([CallResolve(PromiseRef(inner))], Returns));
      var s := Step(Resolve(w2, inner, x));
      s.heap[outer].state == Fulfilled && s.heap[outer].result == x
  {
    IdleExecutor(w);
    var (w1, inner) := Alloc(w);
    ResolvingExecutor(w1, PromiseRef(inner));
    var (a2, outer) := Alloc(w1);
    var a3 := CloseGuard(a2, outer);
    var w2 := ResolvePromise(a3, outer, PromiseRef(inner));
    AdoptionSubscribes(a3, outer, inner);
    var cb := Callback(TransitionTo(outer, Fulfilled), TransitionTo(outer, Rejected), a3.nextId);
    AdoptedPromiseSettlesLater(w2, inner, outer, cb, x);
  }

  /** The later `resolve(x)` of a promise whose only subscriber adopts it, then its drain task. */
  lemma AdoptedPromiseSettlesLater(w: World, inner: PromiseId, outer: PromiseId, cb: Callback, x: Value)
    requires WF(w) && |w.queue| == 0 && !x.PromiseRef? && !x.Thenable? && inner != outer
    requires cb.onFulfilled == TransitionTo(outer, Fulfilled) && cb.onRejected == TransitionTo(outer, Rejected)
    requires inner in w.heap && w.heap[inner] == Rec(Pending, Null, [cb], false)
    requires outer in w.heap && w.heap[outer].state == Pending
    ensures var s := Step(Resolve(w, inner, x));
      s.heap[outer].state == Fulfilled && s.heap[outer].result == x
  {
    ResolvePlainFulfils(w, inner, x);
    var w3 := Resolve(w, inner, x);
    assert w3.queue == [Drain(inner, Fulfilled, x)] && w3.heap[inner].callbacks == [cb];
    assert w3.heap[outer].state == Pending;
    var c2 := ClearCallbacks(Pop(w3), inner);
    var c3 := HandleCallback(c2, cb, Fulfilled, x);
    assert Step(w3) == HandleAll(c2, [cb], Fulfilled, x) == HandleAll(c3, [], Fulfilled, x);
    AdoptedSettlementMirrors(c2, outer, cb.target, Fulfilled, x);
  }

  /**
   * FIFO: two `then` subscriptions made on a pending promise are dispatched,
   * when it settles, in the order they were made, and only then.
   */
  lemma FifoScenario(w: World, p: PromiseId, h1: Handler, h2: Handler, x: Value)
    requires WF(w) && |w.queue| == 0 && p in w.heap && w.heap[p] == Fresh
    requires !x.PromiseRef? && !x.Thenable?
    ensures var (w1, d1) := Then(w, p, h1, NotFunction);
      var (w2, d2) := Then(w1, p, h2, NotFunction);
      var w3 := Resolve(w2, p, x);
      && w3.trace == w.trace
      && Step(w3).trace == w.trace + [Callback(h1, NotFunction, d1), Callback(h2, NotFunction, d2)]
  {
    var (w1, d1) := Then(w, p, h1, NotFunction);
    var (w2, d2) := Then(w1, p, h2, NotFunction);
    assert w2.heap[p].callbacks == [Callback(h1, NotFunction, d1), Callback(h2, NotFunction, d2)];
    assert w2.queue == [] && w2.heap[p].state == Pending && !w2.heap[p].ignore;
    ResolvePlainFulfils(w2, p, x);
    var w3 := Resolve(w2, p, x);
    assert w3.queue == [Drain(p, Fulfilled, x)];
    DrainDispatchesInOrder(w3);
  }
}
