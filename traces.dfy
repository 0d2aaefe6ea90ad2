/**
 * The common shape of every request function in the stack. A call is run
 * against a scripted outside world (what fetch answers, what the callbacks
 * in the options do, what the cache store decides) and yields the trace of
 * effects it caused, what the caller gets back (a synchronous throw, or a
 * pending result with an optional `.abort` handle) and the world after it.
 * Everything runs to settlement in program order: timers that fire and
 * callers that abort are events of the abort state machine (module
 * WithAbort), not of these runs.
 */
module Traces {
  import opened Values
  import opened AbortControllers

  /** The middleware that issued a call of the request it wraps. */
  datatype Layer = AuthLayer | CacheLayer | BgSyncLayer | AbortLayer | ShortcutLayer

  datatype Effect =
      /** a middleware calls the request function it wraps */
    | Invoke(layer: Layer, url: string, args: Args)
      /** the base request calls fetch */
    | Fetch(url: string, options: Options)
      /** getAbortController makes the controller with this id */
    | NewController(id: nat)
      /** setTimeout(abort, delay) for the controller with this id */
    | StartTimer(id: nat, delay: Value)
      /** clearTimeout for the timer of the controller with this id */
    | ClearTimer(id: nat)
      /** a function from the options is called */
    | Called(callee: Value)
      /** authClient.getTokenSilently() */
    | TokenRequested
      /** makeIDB(name) */
    | OpenStore(name: Value)
      /** store.get(key, { fetch, maxAge }) */
    | StoreGet(key: string, maxAge: Value)
      /** navigator.serviceWorker.controller.postMessage(message) */
    | Posted(message: Value)

  /** How a promise ends; Unsettled stands for one that never settles. */
  datatype Settled = Fulfilled(value: Value) | Rejected(reason: Value) | Unsettled

  /** The `.abort` attached by withAbort to the result of the call that made controller `controller`. */
  datatype Handle = AbortHandle(controller: nat)

  /** A returned promise and its `.abort` property (None when it has none). */
  datatype Pending = Pending(outcome: Settled, abort: Option<Handle>)

  /** What a call of a request function does for its caller. */
  datatype Call = Threw(error: Value) | Returned(pending: Pending)

  datatype Body = JsonBody(value: Value) | Malformed

  /** What fetch answers: a response, a rejection, or nothing at all. */
  datatype FetchReply = Responds(status: int, statusText: string, body: Body) | Fails(reason: Value) | Silent

  /**
   * What calling a function from the options does: return a promise that
   * resolves, rejects or hangs, throw, or return a value that is not a
   * promise.
   */
  datatype Answer = Resolves(value: Value) | Rejects(reason: Value) | Hangs | Throws(error: Value) | Returns(value: Value)

  /** What the cache store's get does: answer by itself, or call the fetch thunk it was given. */
  datatype StoreAnswer = Cached(outcome: Settled) | Compute

  /** The scripted outside world, consumed in call order. */
  datatype World = World(
    fetches: seq<FetchReply>,
    answers: seq<Answer>,
    store: seq<StoreAnswer>,
    platform: Platform,
    serviceWorker: bool,
    nextId: nat)

  datatype Step = Step(effects: seq<Effect>, call: Call, world: World)

  /** A request function `(url, options) => promise`, run against a world. */
  type Request = (string, Args, World) -> Step

  /** The next fetch reply; a fetch with no scripted reply never answers. */
  function TakeFetch(w: World): (r: (FetchReply, World))
    ensures |w.fetches| > 0 ==> r == (w.fetches[0], w.(fetches := w.fetches[1..]))
    ensures |w.fetches| == 0 ==> r == (Silent, w)
  {
    if |w.fetches| == 0 then (Silent, w) else (w.fetches[0], w.(fetches := w.fetches[1..]))
  }

  /** The next store decision; an unscripted store answers undefined by itself. */
  function TakeStore(w: World): (r: (StoreAnswer, World))
    ensures |w.store| > 0 ==> r == (w.store[0], w.(store := w.store[1..]))
    ensures |w.store| == 0 ==> r == (Cached(Fulfilled(Undefined)), w)
  {
    if |w.store| == 0 then (Cached(Fulfilled(Undefined)), w) else (w.store[0], w.(store := w.store[1..]))
  }

  datatype Invocation = Invocation(effects: seq<Effect>, answer: Answer, world: World)

  /**
   * Calling `f()` for a function taken from the options: a value that is not
   * a function throws a TypeError; a function with no scripted answer
   * returns undefined.
   */
  function CallFn(f: Value, w: World): (c: Invocation)
    ensures !f.Func? ==> c == Invocation([], Throws(NotAFunction("callback")), w)
    ensures f.Func? ==> c.effects == [Called(f)]
    ensures f.Func? && |w.answers| > 0 ==> c.answer == w.answers[0] && c.world == w.(answers := w.answers[1..])
    ensures f.Func? && |w.answers| == 0 ==> c.answer == Returns(Undefined) && c.world == w
  {
    if !f.Func? then Invocation([], Throws(NotAFunction("callback")), w)
    else if |w.answers| == 0 then Invocation([Called(f)], Returns(Undefined), w)
    else Invocation([Called(f)], w.answers[0], w.(answers := w.answers[1..]))
  }

  /** A middleware calling the request it wraps with an options object. */
  function Forward(inner: Request, layer: Layer, url: string, opts: Options, w: World): (s: Step)
    ensures s.effects == [Invoke(layer, url, Passed(opts))] + inner(url, Passed(opts), w).effects
    ensures s.call == inner(url, Passed(opts), w).call
    ensures s.world == inner(url, Passed(opts), w).world
  {
    var r := inner(url, Passed(opts), w);
    Step([Invoke(layer, url, Passed(opts))] + r.effects, r.call, r.world)
  }

  /**
   * How the promise of a `.then` handler ends when the handler's value is
   * the request call c: a throw rejects it, a returned promise is adopted
   * (its `.abort` is lost).
   */
  function Adopt(c: Call): (s: Settled)
    ensures c.Threw? ==> s == Rejected(c.error)
    ensures c.Returned? ==> s == c.pending.outcome
  {
    match c
    case Threw(e) => Rejected(e)
    case Returned(p) => p.outcome
  }

  /** The ids of the controllers made in a trace, in order. */
  function ControllerIds(fx: seq<Effect>): seq<nat> {
    if fx == [] then []
    else (if fx[0].NewController? then [fx[0].id] else []) + ControllerIds(fx[1..])
  }

  /** The ids of the timers started in a trace, in order. */
  function TimerIds(fx: seq<Effect>): seq<nat> {
    if fx == [] then []
    else (if fx[0].StartTimer? then [fx[0].id] else []) + TimerIds(fx[1..])
  }

  /** How many calls a layer issued in a trace. */
  function IssuedBy(fx: seq<Effect>, layer: Layer): nat {
    if fx == [] then 0
    else (if fx[0].Invoke? && fx[0].layer == layer then 1 else 0) + IssuedBy(fx[1..], layer)
  }

  /** How many times fetch was called in a trace. */
  function FetchCount(fx: seq<Effect>): nat {
    if fx == [] then 0
    else (if fx[0].Fetch? then 1 else 0) + FetchCount(fx[1..])
  }

  /** The timers still pending after a trace, starting from `pending`. */
  function PendingTimers(pending: set<nat>, fx: seq<Effect>): set<nat>
    decreases |fx|
  {
    if fx == [] then pending
    else
      var now := match fx[0]
        case StartTimer(id, _) => pending + {id}
        case ClearTimer(id) => pending - {id}
        case _ => pending;
      PendingTimers(now, fx[1..])
  }

  /** `n` consecutive ids from `from`. */
  function Ids(from: nat, n: nat): (r: seq<nat>)
    ensures |r| == n
    ensures forall i :: 0 <= i < n ==> r[i] == from + i
    decreases n
  {
    if n == 0 then [] else [from] + Ids(from + 1, n - 1)
  }

  lemma {:induction false} ControllerIdsAppend(a: seq<Effect>, b: seq<Effect>)
    ensures ControllerIds(a + b) == ControllerIds(a) + ControllerIds(b)
  {
    if a == [] {
      assert a + b == b;
    } else {
      assert (a + b)[1..] == a[1..] + b;
      ControllerIdsAppend(a[1..], b);
    }
  }

  lemma {:induction false} TimerIdsAppend(a: seq<Effect>, b: seq<Effect>)
    ensures TimerIds(a + b) == TimerIds(a) + TimerIds(b)
  {
    if a == [] {
      assert a + b == b;
    } else {
      assert (a + b)[1..] == a[1..] + b;
      TimerIdsAppend(a[1..], b);
    }
  }

  lemma {:induction false} IssuedByAppend(a: seq<Effect>, b: seq<Effect>, layer: Layer)
    ensures IssuedBy(a + b, layer) == IssuedBy(a, layer) + IssuedBy(b, layer)
  {
    if a == [] {
      assert a + b == b;
    } else {
      assert (a + b)[1..] == a[1..] + b;
      IssuedByAppend(a[1..], b, layer);
    }
  }

  /**
   * Forwarding adds exactly one call of the forwarding layer to the inner
   * trace, and nothing else: the inner calls of every layer, the fetches,
   * the controllers and the timers are the inner request's own.
   */
  lemma ForwardCounts(inner: Request, layer: Layer, url: string, opts: Options, w: World, other: Layer)
    requires other != layer
    ensures var fx := Forward(inner, layer, url, opts, w).effects;
      var inFx := inner(url, Passed(opts), w).effects;
      && IssuedBy(fx, layer) == 1 + IssuedBy(inFx, layer)
      && IssuedBy(fx, other) == IssuedBy(inFx, other)
      && FetchCount(fx) == FetchCount(inFx)
      && ControllerIds(fx) == ControllerIds(inFx)
      && TimerIds(fx) == TimerIds(inFx)
  {
    var head := [Invoke(layer, url, Passed(opts))];
    var inFx := inner(url, Passed(opts), w).effects;
    IssuedByAppend(head, inFx, layer);
    IssuedByAppend(head, inFx, other);
    FetchCountAppend(head, inFx);
    ControllerIdsAppend(head, inFx);
    TimerIdsAppend(head, inFx);
  }

  /** A trace with no Invoke effect issues no calls. */
  lemma {:induction false} IssuedByNone(fx: seq<Effect>, layer: Layer)
    requires forall i :: 0 <= i < |fx| ==> !fx[i].Invoke?
    ensures IssuedBy(fx, layer) == 0
  {
    if fx != [] {
      assert forall i :: 0 <= i < |fx[1..]| ==> fx[1..][i] == fx[i + 1];
      IssuedByNone(fx[1..], layer);
    }
  }

  /** A trace with no Fetch effect calls fetch zero times. */
  lemma {:induction false} FetchCountNone(fx: seq<Effect>)
    requires forall i :: 0 <= i < |fx| ==> !fx[i].Fetch?
    ensures FetchCount(fx) == 0
  {
    if fx != [] {
      assert forall i :: 0 <= i < |fx[1..]| ==> fx[1..][i] == fx[i + 1];
      FetchCountNone(fx[1..]);
    }
  }

  lemma {:induction false} FetchCountAppend(a: seq<Effect>, b: seq<Effect>)
    ensures FetchCount(a + b) == FetchCount(a) + FetchCount(b)
  {
    if a == [] {
      assert a + b == b;
    } else {
      assert (a + b)[1..] == a[1..] + b;
      FetchCountAppend(a[1..], b);
    }
  }

  lemma {:induction false} PendingTimersAppend(pending: set<nat>, a: seq<Effect>, b: seq<Effect>)
    ensures PendingTimers(pending, a + b) == PendingTimers(PendingTimers(pending, a), b)
    decreases |a|
  {
    if a == [] {
      assert a + b == b;
    } else {
      assert (a + b)[1..] == a[1..] + b;
      var now := match a[0]
        case StartTimer(id, _) => pending + {id}
        case ClearTimer(id) => pending - {id}
        case _ => pending;
      PendingTimersAppend(now, a[1..], b);
    }
  }

  lemma {:induction false} IdsAppend(from: nat, n: nat, k: nat)
    ensures Ids(from, n) + Ids(from + n, k) == Ids(from, n + k)
  {
    var l, r := Ids(from, n) + Ids(from + n, k), Ids(from, n + k);
    assert |l| == |r|;
    forall i | 0 <= i < |l| ensures l[i] == r[i] {
      if i < n {
        assert l[i] == Ids(from, n)[i];
      } else {
        assert l[i] == Ids(from + n, k)[i - n];
      }
    }
  }
}
