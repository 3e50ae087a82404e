/**
 * The promise runtime of src/index.js as mutable state: every promise's
 * fields, updated in place, and the queue of functions handed to
 * `setTimeout(fn, 0)`.  Each method is proved to compute the corresponding
 * function of `Semantics` on the runtime state.
 */
module PromiseRuntime {
  import opened Values
  import Sem = Semantics

  class Runtime {
    /** The fields of every allocated promise, by address. */
    var heap: map<PromiseId, Rec>
    /** The functions handed to `setTimeout(fn, 0)`, oldest first. */
    var queue: seq<Task>
    /** The next free address. */
    var nextId: PromiseId
    /** The callbacks `handleCallback` has been called with, in order. */
    ghost var trace: seq<Callback>

    ghost function Model(): World
      reads this
    {
      World(heap, queue, nextId, trace)
    }

    constructor ()
      ensures Model() == Empty
    {
      heap, queue, nextId := map[], [], 0;
      trace := [];
    }

    /** `transition(promise, state, result)`, src/index.js:63-73. */
    method Transition(p: PromiseId, to: SettledState, res: Value)
      requires Sem.WF(Model())
      modifies this
      ensures Model() == Sem.Transition(old(Model()), p, to, res)
    {
      if p !in heap || heap[p].state != Pending {
        return;
      }
      heap := heap[p := heap[p].(state := to, result := res)];
      queue := queue + [Drain(p, to, res)];
    }

    /** The field initialisation of src/index.js:17-19 and the flag of line 25. */
    method Alloc() returns (p: PromiseId)
      requires Sem.WF(Model())
      modifies this
      ensures Model() == Sem.Alloc(old(Model())).0 && p == Sem.Alloc(old(Model())).1
    {
      p := nextId;
      heap := heap[p := Fresh];
      nextId := nextId + 1;
    }

    /** `resolvePromise(promise, result, onFulfilled, onRejected)`, src/index.js:119-141. */
    method ResolvePromise(p: PromiseId, v: Value)
      requires Sem.WF(Model())
      modifies this
      ensures Model() == Sem.ResolvePromise(old(Model()), p, v)
      decreases v, 0
    {
      match Sem.Classify(p, v)
      case SelfResolution =>
        Transition(p, Rejected, SelfResolutionError);
      case Adopt(q) =>
        var _ := Then(q, TransitionTo(p, Fulfilled), TransitionTo(p, Rejected));
      case Assimilate(body) =>
        var t := NewPromise(body);
        var _ := Then(t, TransitionTo(p, Fulfilled), TransitionTo(p, Rejected));
      case RejectWith(e) =>
        Transition(p, Rejected, e);
      case FulfilWith(x) =>
        Transition(p, Fulfilled, x);
    }

    /** The `resolve` closure of src/index.js:27-34. */
    method Resolve(p: PromiseId, v: Value)
      requires Sem.WF(Model())
      modifies this
      ensures Model() == Sem.Resolve(old(Model()), p, v)
      decreases v, 1
    {
      if p !in heap || heap[p].ignore {
        return;
      }
      heap := heap[p := heap[p].(ignore := true)];
      ResolvePromise(p, v);
    }

    /** The `reject` closure of src/index.js:36-42, rejecting with its argument. */
    method Reject(p: PromiseId, reason: Value)
      requires Sem.WF(Model())
      modifies this
      ensures Model() == Sem.Reject(old(Model()), p, reason)
    {
      if p !in heap || heap[p].ignore {
        return;
      }
      heap := heap[p := heap[p].(ignore := true)];
      Transition(p, Rejected, reason);
    }

    /** One call of user code on a `resolve`/`reject` pair. */
    method ApplyCall(p: PromiseId, c: ResolverCall)
      requires Sem.WF(Model())
      modifies this
      ensures Model() == Sem.ApplyCall(old(Model()), p, c)
      decreases c, 0
    {
      match c
      case CallResolve(v) => Resolve(p, v);
      case CallReject(reason) => Reject(p, reason);
    }

    /** `try { f(resolve, reject) } catch (error) { reject(error) }`, src/index.js:44-48. */
    method RunExecutor(p: PromiseId, e: Executor)
      requires Sem.WF(Model())
      modifies this
      ensures Model() == Sem.RunExecutor(old(Model()), p, e)
      decreases e, |e.calls| + 1
    {
      ghost var w0 := Model();
      for i := 0 to |e.calls|
        invariant Sem.WF(Model())
        invariant Model() == Sem.RunCalls(w0, p, e, i)
      {
        ApplyCall(p, e.calls[i]);
      }
      match e.ending
      case Returns =>
      case Throws(err) => Reject(p, err);
    }

    /** The constructor `Promise(f)`, src/index.js:16-49. */
    method NewPromise(e: Executor) returns (p: PromiseId)
      requires Sem.WF(Model())
      modifies this
      ensures Model() == Sem.NewPromise(old(Model()), e).0 && p == Sem.NewPromise(old(Model()), e).1
      decreases e, |e.calls| + 2
    {
      p := Alloc();
      RunExecutor(p, e);
    }

    /** `Promise.prototype.then`, src/index.js:82-92. */
    method Then(q: PromiseId, onF: Handler, onR: Handler) returns (d: PromiseId)
      requires Sem.WF(Model())
      modifies this
      ensures Model() == Sem.Then(old(Model()), q, onF, onR).0 && d == Sem.Then(old(Model()), q, onF, onR).1
    {
      var known := q in heap;
      d := Alloc();
      var callback := Callback(onF, onR, d);
      if known && heap[q].state == Pending {
        heap := heap[q := heap[q].(callbacks := heap[q].callbacks + [callback])];
      } else if known {
        queue := queue + [Dispatch(callback, q)];
      }
    }

    /** `handleCallback(callback, state, result)`, src/index.js:94-106. */
    method HandleCallback(cb: Callback, st: State, res: Value)
      requires Sem.WF(Model())
      modifies this
      ensures Model() == Sem.HandleCallback(old(Model()), cb, st, res)
    {
      trace := trace + [cb];
      if st == Pending {
        return;
      }
      ghost var w0 := Model();
      var h := if st == Fulfilled then cb.onFulfilled else cb.onRejected;
      match h
      case NotFunction =>
        assert Sem.HandlerEffect(w0, h, res) == w0;
        if st == Fulfilled {
          Resolve(cb.target, res);
        } else {
          Reject(cb.target, res);
        }
      case UserFn(f) =>
        assert Sem.HandlerEffect(w0, h, res) == w0;
        match f(res) {
          case Return(x) =>
            assert Sem.Reaction(cb, st, res) == CallResolve(x);
            Resolve(cb.target, x);
          case Throw(e) =>
            assert Sem.Reaction(cb, st, res) == CallReject(e);
            Reject(cb.target, e);
        }
      case TransitionTo(t, to) =>
        Transition(t, to, res);
        assert Model() == Sem.HandlerEffect(w0, h, res);
        assert Sem.Reaction(cb, st, res) == CallResolve(Undefined);
        Resolve(cb.target, Undefined);
    }

    /** `handleCallbacks(callbacks, state, result)`, src/index.js:143-147. */
    method HandleCallbacks(callbacks: seq<Callback>, st: State, res: Value)
      requires Sem.WF(Model())
      modifies this
      ensures Model() == Sem.HandleAll(old(Model()), callbacks, st, res)
    {
      var cbs := callbacks;
      while |cbs| > 0
        invariant Sem.WF(Model())
        invariant Sem.HandleAll(Model(), cbs, st, res) == Sem.HandleAll(old(Model()), callbacks, st, res)
        decreases |cbs|
      {
        var cb := cbs[0];
        cbs := cbs[1..];
        HandleCallback(cb, st, res);
      }
    }

    /** Runs the oldest function handed to `setTimeout`, if any. */
    method Step() returns (ran: bool)
      requires Sem.WF(Model())
      modifies this
      ensures ran == (|old(queue)| > 0)
      ensures Model() == Sem.Step(old(Model()))
    {
      if |queue| == 0 {
        return false;
      }
      ran := true;
      var task := queue[0];
      queue := queue[1..];
      match task
      case Drain(p, st, res) =>
        if p in heap {
          var cbs := heap[p].callbacks;
          heap := heap[p := heap[p].(callbacks := [])];
          HandleCallbacks(cbs, st, res);
        }
      case Dispatch(cb, q) =>
        if q in heap {
          HandleCallback(cb, heap[q].state, heap[q].result);
        }
    }
  }
}
