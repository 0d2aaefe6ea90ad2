/**
 * The scenarios of src/index.test.js, each run on the stack the test
 * builds: `withCache(withBgSync(withAbort(defaultExport)))` (Run(TestRequest, ...)) with no
 * generic store, the mocked controller factory (a plain `{}` signal and an
 * abort the test observes), fetch answering 200 with the scripted JSON
 * bodies, and a service-worker controller present.
 *
 * What a test looks at is summarised by Observed: the options of every
 * fetch, every callback called, every message posted and every store call,
 * in order.
 */
module Scenarios {
  import opened Values
  import opened Traces
  import opened AbortControllers
  import opened BaseRequest
  import opened Composition
  import WithAbort
  import WithBgSync
  import WithCache
  import WithAuthClient

  /** withAbort(defaultExport). */
  const TestAbortable: Stack := AbortOver(DefaultStack)

  /** withBgSync(withAbort(defaultExport)). */
  const TestSynced: Stack := BgSyncOver(TestAbortable)

  /** The request under test: withCache(withBgSync(withAbort(defaultExport))). */
  const TestRequest: Stack := CacheOver(TestSynced, Undefined)

  /** `withCache(baseRequest)` of the cache tests. */
  const TestCached: Stack := CacheOver(DefaultStack, Undefined)

  /** `withBgSync(baseRequest)` of the bypass test. */
  const TestBgSync: Stack := BgSyncOver(DefaultStack)

  const Url: string := "mockUrl"

  /** fetch answering 200 with the JSON body `"12345"`. */
  const Reply12345: FetchReply := Responds(200, "OK", JsonBody(Str("12345")))

  /** fetch answering 200 with the JSON body `{ statusText: text }`. */
  function ReplyStatus(text: string): FetchReply {
    Responds(200, "OK", JsonBody(Obj(map["statusText" := Str(text)])))
  }

  function TestWorld(fetches: seq<FetchReply>, answers: seq<Answer>): World {
    World(fetches, answers, [], Missing, true, 0)
  }

  /** The jest mock passed as bgSync. */
  const Callback: Value := Func(0)

  /** `{ body: JSON.stringify({ myData: 1 }), method: "POST", bgSync[, bgSyncOptimistic] }`. */
  function PostOptions(optimistic: Option<bool>): Options {
    var m := map["body" := Json(Obj(map["myData" := Num(1)])), "method" := Str("POST"), "bgSync" := Callback];
    if optimistic.Some? then m["bgSyncOptimistic" := Bool(optimistic.value)] else m
  }

  // ---------------------------------------------------------------------
  // What a test observes of a trace
  // ---------------------------------------------------------------------

  datatype Observation = Observation(fetches: seq<Options>, callbacks: seq<Value>, posted: seq<Value>, stores: seq<Effect>)

  const NoObservation: Observation := Observation([], [], [], [])

  function Observe(e: Effect): Observation {
    match e
    case Fetch(_, opts) => Observation([opts], [], [], [])
    case Called(f) => Observation([], [f], [], [])
    case Posted(message) => Observation([], [], [message], [])
    case OpenStore(_) => Observation([], [], [], [e])
    case StoreGet(_, _) => Observation([], [], [], [e])
    case _ => NoObservation
  }

  function Merge(a: Observation, b: Observation): Observation {
    Observation(a.fetches + b.fetches, a.callbacks + b.callbacks, a.posted + b.posted, a.stores + b.stores)
  }

  function Observed(fx: seq<Effect>): Observation
    decreases |fx|
  {
    if fx == [] then NoObservation else Merge(Observe(fx[0]), Observed(fx[1..]))
  }

  /** An effect no test looks at: layer calls, controllers, timers, token requests. */
  predicate Plumbing(e: Effect) {
    e.Invoke? || e.NewController? || e.StartTimer? || e.ClearTimer? || e.TokenRequested?
  }

  lemma {:induction false} ObservedAppend(a: seq<Effect>, b: seq<Effect>)
    ensures Observed(a + b) == Merge(Observed(a), Observed(b))
    decreases |a|
  {
    if a == [] {
      assert a + b == b;
    } else {
      assert (a + b)[1..] == a[1..] + b;
      ObservedAppend(a[1..], b);
      var x, y, z := Observe(a[0]), Observed(a[1..]), Observed(b);
      assert x.fetches + (y.fetches + z.fetches) == (x.fetches + y.fetches) + z.fetches;
      assert x.callbacks + (y.callbacks + z.callbacks) == (x.callbacks + y.callbacks) + z.callbacks;
      assert x.posted + (y.posted + z.posted) == (x.posted + y.posted) + z.posted;
      assert x.stores + (y.stores + z.stores) == (x.stores + y.stores) + z.stores;
    }
  }

  lemma {:induction false} ObservedPlumbing(fx: seq<Effect>)
    requires forall i :: 0 <= i < |fx| ==> Plumbing(fx[i])
    ensures Observed(fx) == NoObservation
    decreases |fx|
  {
    if fx != [] {
      assert forall i :: 0 <= i < |fx[1..]| ==> fx[1..][i] == fx[i + 1];
      ObservedPlumbing(fx[1..]);
    }
  }

  lemma ObservedOne(e: Effect)
    ensures Observed([e]) == Observe(e)
  {
    assert [e][1..] == [];
  }

  /** A layer's call of the request it wraps is not observed. */
  lemma ObservedForward(layer: Layer, url: string, args: Args, fx: seq<Effect>)
    ensures Observed([Invoke(layer, url, args)] + fx) == Observed(fx)
  {
    assert ([Invoke(layer, url, args)] + fx)[1..] == fx;
  }

  /** The trace of one call of withAbort(request) (see AbortableTrace) shows its fetch and nothing else. */
  lemma ObservedAbortTrace(id: nat, delay: Value, url: string, m: Options, tail: seq<Effect>)
    requires tail == [] || tail == [ClearTimer(id)]
    ensures Observed([NewController(id), StartTimer(id, delay), Invoke(AbortLayer, url, Passed(m)), Fetch(url, FetchOptions(m))] + tail)
      == Observation([FetchOptions(m)], [], [], [])
  {
    var pre := [NewController(id), StartTimer(id, delay), Invoke(AbortLayer, url, Passed(m))];
    var f := Fetch(url, FetchOptions(m));
    assert [NewController(id), StartTimer(id, delay), Invoke(AbortLayer, url, Passed(m)), f] == pre + [f];
    ObservedPlumbing(pre);
    ObservedPlumbing(tail);
    ObservedOne(f);
    ObservedAppend(pre, [f]);
    ObservedAppend(pre + [f], tail);
  }

  /** Effects of one call of withAbort(request): its controller, timer, call, fetch and (on success) clearTimeout. */
  lemma ObservedAbortable(url: string, opts: Options, w: World)
    ensures var m := WithAbort.AbortOptions(opts, SignalValue(w.platform, w.nextId));
      Observed(Abortable(url, Passed(opts), w).effects) == Observation([FetchOptions(m)], [], [], [])
  {
    var id := w.nextId;
    var m := WithAbort.AbortOptions(opts, SignalValue(w.platform, id));
    var tail := if Outcome(TakeFetch(w).0).Fulfilled? then [ClearTimer(id)] else [];
    AbortableTrace(url, opts, w);
    ObservedAbortTrace(id, WithAbort.TimeoutOf(opts), url, m, tail);
  }

  // ---------------------------------------------------------------------
  // One layer at a time, for any stack underneath
  // ---------------------------------------------------------------------

  /** Two calls a test cannot tell apart: the same observation, result and world after. */
  predicate SameView(a: Step, b: Step) {
    Observed(a.effects) == Observed(b.effects) && a.call == b.call && a.world == b.world
  }

  /** withAuthClient with no authClient is invisible: it calls the stack below with the options minus the auth keys. */
  lemma AuthPassesOn(s: Stack, url: string, args: Args, p: Options, w: World)
    requires !Truthy(Get(OptionsOf(args), "authClient"))
    requires p == WithAuthClient.AuthParams(OptionsOf(args))
    ensures SameView(Run(AuthOver(s), url, args, w), Run(s, url, Passed(p), w))
  {
    AuthOverForwards(s, url, args, w);
    ObservedForward(AuthLayer, url, Passed(p), Run(s, url, Passed(p), w).effects);
  }

  /** withCache when not engaged is invisible: it calls the stack below with the options minus the cache keys. */
  lemma CachePassesOn(s: Stack, generic: Value, url: string, args: Args, p: Options, w: World)
    requires !WithCache.Engaged(OptionsOf(args), generic)
    requires p == WithCache.Stripped(OptionsOf(args))
    ensures SameView(Run(CacheOver(s, generic), url, args, w), Run(s, url, Passed(p), w))
  {
    CacheOverForwards(s, generic, url, args, w);
    ObservedForward(CacheLayer, url, Passed(p), Run(s, url, Passed(p), w).effects);
  }

  /** withBgSync with no callback is invisible: it calls the stack below with the options minus the bgSync keys. */
  lemma BgSyncPassesOn(s: Stack, url: string, args: Args, p: Options, w: World)
    requires !Truthy(Get(OptionsOf(args), "bgSync"))
    requires p == WithBgSync.Params(OptionsOf(args))
    ensures SameView(Run(BgSyncOver(s), url, args, w), Run(s, url, Passed(p), w))
  {
    BgSyncOverForwards(s, url, args, w);
    ObservedForward(BgSyncLayer, url, Passed(p), Run(s, url, Passed(p), w).effects);
  }

  /**
   * withAbort around a stack that fetched and returned: the same
   * observation, outcome and world, the `.abort` of withAbort's own
   * controller.
   */
  lemma AbortOverStack(s: Stack, url: string, m: Options, w: World, seen: Observation, o: Settled, h: Option<Handle>, after: World)
    requires var r := Run(s, url, Passed(WithAbort.AbortOptions(m, SignalValue(w.platform, w.nextId))), w.(nextId := w.nextId + 1));
      Observed(r.effects) == seen && r.call == Returned(Pending(o, h)) && r.world == after
    ensures var r := Run(AbortOver(s), url, Passed(m), w);
      Observed(r.effects) == seen && r.call == Returned(Pending(o, Some(AbortHandle(w.nextId)))) && r.world == after
  {
    AbortOverRun(Build(s), url, m, w, seen, o, h, after);
  }

  lemma AbortOverRun(inner: Request, url: string, m: Options, w: World, seen: Observation, o: Settled, h: Option<Handle>, after: World)
    requires var s := inner(url, Passed(WithAbort.AbortOptions(m, SignalValue(w.platform, w.nextId))), w.(nextId := w.nextId + 1));
      Observed(s.effects) == seen && s.call == Returned(Pending(o, h)) && s.world == after
    ensures var r := WithAbort.AbortCall(inner, url, Passed(m), w);
      Observed(r.effects) == seen && r.call == Returned(Pending(o, Some(AbortHandle(w.nextId)))) && r.world == after
  {
    var id := w.nextId;
    var m0 := WithAbort.AbortOptions(m, SignalValue(w.platform, id));
    var s := inner(url, Passed(m0), w.(nextId := id + 1));
    WithAbort.AbortCallReturns(inner, url, m, w);
    ObservedFramed(NewController(id), StartTimer(id, WithAbort.TimeoutOf(m)), Invoke(AbortLayer, url, Passed(m0)),
                   s.effects, if s.call.pending.outcome.Fulfilled? then [ClearTimer(id)] else []);
  }

  // ---------------------------------------------------------------------
  // The stack on options that ask for no auth, caching or bgSync
  // ---------------------------------------------------------------------

  /** withAbort(request) on an options object, seen by a test: one fetch, its outcome, its own `.abort`. */
  lemma AbortableSeen(url: string, opts: Options, w: World)
    ensures var r := Run(AbortOver(Fetcher), url, Passed(opts), w);
      && Observed(r.effects) == Observation([FetchOptions(WithAbort.AbortOptions(opts, SignalValue(w.platform, w.nextId)))], [], [], [])
      && r.call == Returned(Pending(Outcome(TakeFetch(w).0), Some(AbortHandle(w.nextId))))
      && r.world == TakeFetch(w).1.(nextId := w.nextId + 1)
  {
    assert Run(AbortOver(Fetcher), url, Passed(opts), w) == Abortable(url, Passed(opts), w);
    AbortableTrace(url, opts, w);
    AbortableWorld(url, opts, w);
    ObservedAbortable(url, opts, w);
  }

  /** The default export on plain options: one fetch, its outcome unchanged, the `.abort` of its own controller. */
  lemma DefaultRun(url: string, m: Options, w: World)
    requires Plain(m)
    ensures var r := Run(DefaultStack, url, Passed(m), w);
      && Observed(r.effects) == Observation([FetchOptions(WithAbort.AbortOptions(PlainParams(m), SignalValue(w.platform, w.nextId)))], [], [], [])
      && r.call == Returned(Pending(Outcome(TakeFetch(w).0), Some(AbortHandle(w.nextId))))
      && r.world == TakeFetch(w).1.(nextId := w.nextId + 1)
  {
    var p1 := WithAuthClient.AuthParams(m);
    var p2 := WithCache.Stripped(p1);
    AuthKeepsOptions(m, Undefined, "cache");
    AuthKeepsOptions(m, Undefined, "cacheStore");
    AuthKeepsOptions(m, Undefined, "bgSync");
    AuthPassesOn(CacheOver(BgSyncOver(AbortOver(Fetcher)), Undefined), url, Passed(m), p1, w);
    CachePassesOn(BgSyncOver(AbortOver(Fetcher)), Undefined, url, Passed(p1), p2, w);
    BgSyncPassesOn(AbortOver(Fetcher), url, Passed(p2), PlainParams(m), w);
    AbortableSeen(url, PlainParams(m), w);
  }

  /** The options fetch gets for caller options m sent through withAbort(defaultExport) with controllers id and id + 1. */
  function Delivered(m: Options, p: Platform, id: nat): Options {
    FetchOptions(WithAbort.AbortOptions(PlainParams(WithAbort.AbortOptions(m, SignalValue(p, id))), SignalValue(p, id + 1)))
  }

  /** Adding the signal keeps options plain. */
  lemma PlainWithSignal(m: Options, signal: Value)
    requires Plain(m)
    ensures Plain(WithAbort.AbortOptions(m, signal))
  {
    var m0 := WithAbort.AbortOptions(m, signal);
    assert Get(m0, "authClient") == Get(m, "authClient") && Get(m0, "bgSync") == Get(m, "bgSync");
    assert Get(m0, "cache") == Get(m, "cache") && Get(m0, "cacheStore") == Get(m, "cacheStore");
  }

  /** Three unobserved effects before a trace and unobserved ones after it leave its observation as it is. */
  lemma ObservedFramed(a: Effect, b: Effect, c: Effect, fx: seq<Effect>, tail: seq<Effect>)
    requires Plumbing(a) && Plumbing(b) && Plumbing(c)
    requires forall i :: 0 <= i < |tail| ==> Plumbing(tail[i])
    ensures Observed([a, b, c] + fx + tail) == Observed(fx)
  {
    var head := [a, b, c];
    ObservedPrefix(head, fx);
    var framed := head + fx;
    ObservedSuffix(framed, tail);
  }

  /** Unobserved effects before a trace leave its observation as it is. */
  lemma ObservedPrefix(head: seq<Effect>, fx: seq<Effect>)
    requires forall i :: 0 <= i < |head| ==> Plumbing(head[i])
    ensures Observed(head + fx) == Observed(fx)
  {
    ObservedPlumbing(head);
    ObservedAppend(head, fx);
    MergeNothing(Observed(fx));
  }

  /** Unobserved effects after a trace leave its observation as it is. */
  lemma ObservedSuffix(fx: seq<Effect>, tail: seq<Effect>)
    requires forall i :: 0 <= i < |tail| ==> Plumbing(tail[i])
    ensures Observed(fx + tail) == Observed(fx)
  {
    ObservedPlumbing(tail);
    ObservedAppend(fx, tail);
    MergeNothing(Observed(fx));
  }

  lemma MergeNothing(o: Observation)
    ensures Merge(NoObservation, o) == o && Merge(o, NoObservation) == o
  {
    assert [] + o.fetches == o.fetches && o.fetches + [] == o.fetches;
    assert [] + o.callbacks == o.callbacks && o.callbacks + [] == o.callbacks;
    assert [] + o.posted == o.posted && o.posted + [] == o.posted;
    assert [] + o.stores == o.stores && o.stores + [] == o.stores;
  }

  /** `fetch.mock.calls[k][1].headers.bgSync` is "1". */
  predicate MarkedRetry(opts: Options) {
    "headers" in opts && opts["headers"].Obj? && "bgSync" in opts["headers"].fields
    && opts["headers"].fields["bgSync"] == Str("1")
  }

  /** The retry's `bgSync: "1"` header reaches fetch through both withAbort layers and the default export; the first call carries none. */
  lemma MarkOnlyOnRetry(p: Options, id: nat)
    requires "headers" !in p
    ensures !MarkedRetry(Delivered(p, Missing, id))
    ensures MarkedRetry(Delivered(WithBgSync.RetryOptions(p), Missing, id))
  {
    var r := WithBgSync.RetryOptions(p);
    DeliveredHeaders(p, Missing, id);
    DeliveredHeaders(r, Missing, id);
    FetchMarked(WithAbort.AbortOptions(PlainParams(WithAbort.AbortOptions(p, SignalValue(Missing, id))), SignalValue(Missing, id + 1)));
    FetchMarked(WithAbort.AbortOptions(PlainParams(WithAbort.AbortOptions(r, SignalValue(Missing, id))), SignalValue(Missing, id + 1)));
  }

  /** The headers reach fetch's options through both withAbort layers and the default export unchanged. */
  lemma DeliveredHeaders(m: Options, p: Platform, id: nat)
    ensures Get(WithAbort.AbortOptions(PlainParams(WithAbort.AbortOptions(m, SignalValue(p, id))), SignalValue(p, id + 1)), "headers") == Get(m, "headers")
  {
    var m0 := WithAbort.AbortOptions(m, SignalValue(p, id));
    assert Get(m0, "headers") == Get(m, "headers");
    assert Get(PlainParams(m0), "headers") == Get(m0, "headers");
  }

  /** fetch's options carry the retry mark exactly when the headers given to it do. */
  lemma FetchMarked(q: Options)
    ensures MarkedRetry(FetchOptions(q)) <==> "bgSync" in Spread(Get(q, "headers")) && Spread(Get(q, "headers"))["bgSync"] == Str("1")
  {
    assert "bgSync" !in DefaultHeaders;
  }

  /**
   * withAbort(defaultExport) on plain options: two controllers (the outer
   * one's `.abort` is what the caller gets), one fetch with the delivered
   * options, the fetch outcome unchanged, no callback, no store.
   */
  lemma TestAbortableRun(url: string, m: Options, w: World)
    requires Plain(m)
    ensures var s := Run(TestAbortable, url, Passed(m), w);
      && Observed(s.effects) == Observation([Delivered(m, w.platform, w.nextId)], [], [], [])
      && s.call == Returned(Pending(Outcome(TakeFetch(w).0), Some(AbortHandle(w.nextId))))
      && s.world == TakeFetch(w).1.(nextId := w.nextId + 2)
  {
    TestAbortableSteps(url, m, w);
    TakeFetchIgnoresIds(w, w.nextId + 1);
  }

  /** Taking a fetch reply does not depend on the next controller id. */
  lemma TakeFetchIgnoresIds(w: World, n: nat)
    ensures TakeFetch(w.(nextId := n)) == (TakeFetch(w).0, TakeFetch(w).1.(nextId := n))
  {
  }

  lemma TestAbortableSteps(url: string, m: Options, w: World)
    requires Plain(m)
    ensures var m0 := WithAbort.AbortOptions(m, SignalValue(w.platform, w.nextId));
      var w1 := w.(nextId := w.nextId + 1);
      var s := Run(TestAbortable, url, Passed(m), w);
      && Observed(s.effects) == Observation([FetchOptions(WithAbort.AbortOptions(PlainParams(m0), SignalValue(w1.platform, w1.nextId)))], [], [], [])
      && s.call == Returned(Pending(Outcome(TakeFetch(w1).0), Some(AbortHandle(w.nextId))))
      && s.world == TakeFetch(w1).1.(nextId := w1.nextId + 1)
  {
    var m0 := WithAbort.AbortOptions(m, SignalValue(w.platform, w.nextId));
    var w1 := w.(nextId := w.nextId + 1);
    PlainWithSignal(m, SignalValue(w.platform, w.nextId));
    DefaultRun(url, m0, w1);
    AbortOverStack(DefaultStack, url, m, w, Observation([FetchOptions(WithAbort.AbortOptions(PlainParams(m0), SignalValue(w1.platform, w1.nextId)))], [], [], []),
                   Outcome(TakeFetch(w1).0), Some(AbortHandle(w1.nextId)), TakeFetch(w1).1.(nextId := w1.nextId + 1));
  }

  // ---------------------------------------------------------------------
  // src/index.test.js:44-63, submitting and aborting
  // ---------------------------------------------------------------------

  /** `request("mockUrl")`: every layer hands `{}` on, one fetch, the outer withAbort's `.abort`. */
  lemma TestRequestOmitted(w: World)
    ensures var r := Run(TestRequest, Url, Omitted, w);
      && Observed(r.effects) == Observation([Delivered(map[], w.platform, w.nextId)], [], [], [])
      && r.call == Returned(Pending(Outcome(TakeFetch(w).0), Some(AbortHandle(w.nextId))))
  {
    assert WithCache.Stripped(map[]) == map[];
    assert WithBgSync.Params(map[]) == map[];
    CachePassesOn(TestSynced, Undefined, Url, Omitted, map[], w);
    BgSyncPassesOn(TestAbortable, Url, Passed(map[]), map[], w);
    TestAbortableRun(Url, map[], w);
  }

  /**
   * "submits a request": the promise resolves to "12345" with the outer
   * withAbort's `.abort`; for that call, settled by the success, a later
   * timer firing aborts nothing.
   */
  lemma SubmitsRequest()
    ensures var r := Run(TestRequest, Url, Omitted, TestWorld([Reply12345], []));
      && r.call == Returned(Pending(Fulfilled(Str("12345")), Some(AbortHandle(0))))
      && Observed(r.effects) == Observation([Delivered(map[], Missing, 0)], [], [], [])
      && WithAbort.Next(Missing, WithAbort.Settle(Missing, WithAbort.Started(), r.call.pending.outcome), WithAbort.TimerFires).aborts == 0
  {
    TestRequestOmitted(TestWorld([Reply12345], []));
  }

  /**
   * "aborts a request": the result carries the `.abort` of the outer
   * withAbort's controller (id 0); calling it aborts that controller once
   * and clears its timer, and the mocked abort also cancels the mocked
   * response, so the fetch never answers and the promise never settles.
   */
  lemma AbortsRequest()
    ensures var r := Run(TestRequest, Url, Omitted, TestWorld([Silent], []));
      && r.call == Returned(Pending(Unsettled, Some(AbortHandle(0))))
      && var s := WithAbort.Next(Missing, WithAbort.Started(), WithAbort.CallerAborts);
         s.outcome == Unsettled && s.aborts == 1 && s.timerAborts == 0 && !s.timerPending
  {
    SilentRequest();
    CallerAbortState();
  }

  /** With the mocked abort the fetch never answers: the promise stays pending, with the outer `.abort`. */
  lemma SilentRequest()
    ensures Run(TestRequest, Url, Omitted, TestWorld([Silent], [])).call == Returned(Pending(Unsettled, Some(AbortHandle(0))))
  {
    var w := TestWorld([Silent], []);
    TestRequestOmitted(w);
    assert Outcome(TakeFetch(w).0) == Unsettled && w.nextId == 0;
  }

  /** Calling `.abort` on a started controller: one abort, the timer cleared, no timeout abort. */
  lemma CallerAbortState()
    ensures var s := WithAbort.Next(Missing, WithAbort.Started(), WithAbort.CallerAborts);
      s.outcome == Unsettled && s.aborts == 1 && s.timerAborts == 0 && !s.timerPending
  {
  }

  // ---------------------------------------------------------------------
  // src/index.test.js:65-137, withCache(baseRequest)
  // ---------------------------------------------------------------------

  /** "doesn't cache a request": no store is opened; the request is performed. */
  lemma DoesNotCache()
    ensures var r := Run(TestCached, Url, Omitted, TestWorld([Reply12345], []));
      && Observed(r.effects) == Observation([FetchOptions(WithAbort.AbortOptions(map[], SignalValue(Missing, 0)))], [], [], [])
      && r.call == Returned(Pending(Fulfilled(Str("12345")), Some(AbortHandle(0))))
  {
    var w := TestWorld([Reply12345], []);
    assert WithCache.Stripped(map[]) == map[];
    CachePassesOn(DefaultStack, Undefined, Url, Omitted, map[], w);
    DefaultRun(Url, map[], w);
    assert PlainParams(map[]) == map[];
  }

  /** `{ cache: true, cacheStore: "test-store", fetch: n => n, ...extra }`. */
  function CacheOptions(extra: Options): Options {
    map["cache" := Bool(true), "cacheStore" := Str("test-store"), "fetch" := Func(1)] + extra
  }

  /**
   * The mocked store's get, without calling the fetch thunk. The tests'
   * `jest.fn()` returns a plain undefined, not a promise; the model scripts
   * a promise fulfilled with undefined, which the test's `await` cannot tell
   * apart from it.
   */
  function StoreWorld(): World {
    World([Reply12345], [], [Cached(Fulfilled(Undefined))], Missing, true, 0)
  }

  /** The options the test adds are read back as given. */
  lemma CacheOptionsGet(extra: Options, k: string)
    requires k != "cache" && k != "cacheStore" && k != "fetch"
    ensures Get(CacheOptions(extra), k) == Get(extra, k)
  {
  }

  /** Two store calls are all a test sees of them. */
  lemma ObservedStores(a: Effect, b: Effect)
    requires a.OpenStore? && b.StoreGet?
    ensures Observed([a, b]) == Observation([], [], [], [a, b])
  {
    assert [a, b][1..] == [b];
    ObservedOne(b);
    var none: seq<Options> := [];
    assert none + none == none;
    var quiet: seq<Value> := [];
    assert quiet + quiet == quiet;
    assert [a] + [b] == [a, b];
  }

  /** withCache over any stack, when the store answers by itself. */
  lemma CacheHitRuns(s: Stack, generic: Value, url: string, args: Args, w: World)
    requires WithCache.Engaged(OptionsOf(args), generic)
    requires |w.store| > 0 && w.store[0].Cached?
    ensures var r := Run(CacheOver(s, generic), url, args, w);
      && r.effects == WithCache.StoreEffects(OptionsOf(args), generic, url)
      && r.call == Returned(Pending(w.store[0].outcome, None))
  {
    WithCache.HitSkipsRequest(Build(s), generic, url, args, w);
  }

  /**
   * What the test sees of a store hit: the store named by cacheStore
   * opened, its get called under `test-store.<cacheKey or url>` with the
   * given cacheAge, and nothing fetched.
   */
  lemma CacheHitSeen(extra: Options)
    requires "cache" !in extra && "cacheStore" !in extra
    ensures var m := CacheOptions(extra);
      var r := Run(TestCached, Url, Passed(m), StoreWorld());
      && Observed(r.effects) == Observation([], [], [], [OpenStore(Str("test-store")),
           StoreGet("test-store." + ToText(WithCache.KeyTarget(m, Url)), Get(extra, "cacheAge"))])
      && r.call == Returned(Pending(Fulfilled(Undefined), None))
  {
    var m := CacheOptions(extra);
    TestStoreEffects(extra);
    assert |StoreWorld().store| > 0 && StoreWorld().store[0] == Cached(Fulfilled(Undefined));
    CacheHitRuns(DefaultStack, Undefined, Url, Passed(m), StoreWorld());
    ObservedStores(OpenStore(Str("test-store")), StoreGet("test-store." + ToText(WithCache.KeyTarget(m, Url)), Get(extra, "cacheAge")));
  }

  /** The test's cache options engage the store "test-store", with the key and age they give. */
  lemma TestStoreEffects(extra: Options)
    requires "cache" !in extra && "cacheStore" !in extra
    ensures WithCache.Engaged(CacheOptions(extra), Undefined)
    ensures WithCache.StoreEffects(CacheOptions(extra), Undefined, Url) ==
      [OpenStore(Str("test-store")), StoreGet("test-store." + ToText(WithCache.KeyTarget(CacheOptions(extra), Url)), Get(extra, "cacheAge"))]
  {
    var m := CacheOptions(extra);
    assert Get(m, "cache") == Bool(true) && Get(m, "cacheStore") == Str("test-store");
    CacheOptionsGet(extra, "cacheAge");
    var target := ToText(WithCache.KeyTarget(m, Url));
    assert WithCache.StoreName(m, Undefined) == Str("test-store");
    assert "test-store" + "." + target == "test-store." + target;
  }

  /** A store hit for options `extra`, whose get is called under `full` with maximum age `age`. */
  predicate CacheCase(extra: Options, full: string, age: Value) {
    && "cache" !in extra && "cacheStore" !in extra
    && full == "test-store." + ToText(WithCache.KeyTarget(CacheOptions(extra), Url))
    && age == Get(extra, "cacheAge")
  }

  lemma CacheHitSeenAs(extra: Options, full: string, age: Value)
    requires CacheCase(extra, full, age)
    ensures Observed(Run(TestCached, Url, Passed(CacheOptions(extra)), StoreWorld()).effects) ==
      Observation([], [], [], [OpenStore(Str("test-store")), StoreGet(full, age)])
  {
    CacheHitSeen(extra);
  }

  /** "caches a request on key": makeIDB("test-store") once, get("test-store.test", { fetch }) once. */
  lemma CachesOnKey()
    ensures var r := Run(TestCached, Url, Passed(CacheOptions(map["cacheKey" := Str("test"), "param" := Str("some-param")])), StoreWorld());
      Observed(r.effects) == Observation([], [], [], [OpenStore(Str("test-store")), StoreGet("test-store.test", Undefined)])
  {
    OnKeyCase();
    CacheHitSeenAs(map["cacheKey" := Str("test"), "param" := Str("some-param")], "test-store.test", Undefined);
  }

  lemma OnKeyCase()
    ensures CacheCase(map["cacheKey" := Str("test"), "param" := Str("some-param")], "test-store.test", Undefined)
  {
    var extra := map["cacheKey" := Str("test"), "param" := Str("some-param")];
    CacheOptionsGet(extra, "cacheKey");
    assert "test-store." + ToText(Str("test")) == "test-store.test";
  }

  /** "caches a request with max age": the key falls back to the url and maxAge is passed. */
  lemma CachesWithMaxAge()
    ensures var r := Run(TestCached, Url, Passed(CacheOptions(map["cacheAge" := Num(10)])), StoreWorld());
      Observed(r.effects) == Observation([], [], [], [OpenStore(Str("test-store")), StoreGet("test-store.mockUrl", Num(10))])
  {
    MaxAgeCase();
    CacheHitSeenAs(map["cacheAge" := Num(10)], "test-store.mockUrl", Num(10));
  }

  lemma MaxAgeCase()
    ensures CacheCase(map["cacheAge" := Num(10)], "test-store.mockUrl", Num(10))
  {
    var extra := map["cacheAge" := Num(10)];
    CacheOptionsGet(extra, "cacheKey");
    assert "test-store." + Url == "test-store.mockUrl";
  }

  /** "caches a request with default values": key from the url, maxAge undefined. */
  lemma CachesWithDefaults()
    ensures var r := Run(TestCached, Url, Passed(CacheOptions(map[])), StoreWorld());
      Observed(r.effects) == Observation([], [], [], [OpenStore(Str("test-store")), StoreGet("test-store.mockUrl", Undefined)])
  {
    DefaultsCase();
    CacheHitSeenAs(map[], "test-store.mockUrl", Undefined);
  }

  lemma DefaultsCase()
    ensures CacheCase(map[], "test-store.mockUrl", Undefined)
  {
    CacheOptionsGet(map[], "cacheKey");
    assert "test-store." + Url == "test-store.mockUrl";
  }

  // ---------------------------------------------------------------------
  // src/index.test.js:139-144, withBgSync(baseRequest)
  // ---------------------------------------------------------------------

  /** "bypasses bgSync request": without a callback the response comes through. */
  lemma BypassesBgSync()
    ensures Run(TestBgSync, Url, Omitted, TestWorld([Reply12345], [])).call == Returned(Pending(Fulfilled(Str("12345")), Some(AbortHandle(0))))
  {
    var w := TestWorld([Reply12345], []);
    assert WithBgSync.Params(map[]) == map[];
    BgSyncPassesOn(DefaultStack, Url, Omitted, map[], w);
    DefaultRun(Url, map[], w);
  }

  // ---------------------------------------------------------------------
  // src/index.test.js:146-285, the bgSync scenarios on the request under test
  // ---------------------------------------------------------------------

  /** What withBgSync hands on of the test's POST options. */
  const PostBody: Options := map["body" := Json(Obj(map["myData" := Num(1)])), "method" := Str("POST")]

  /** The POST options ask for bgSync only: caching is off and the cache keys are absent. */
  lemma PostOptionsUncached(optimistic: Option<bool>)
    ensures !WithCache.Engaged(PostOptions(optimistic), Undefined)
    ensures WithCache.Stripped(PostOptions(optimistic)) == PostOptions(optimistic)
  {
    var m := PostOptions(optimistic);
    assert Get(m, "cache") == Undefined;
    assert WithCache.Stripped(m).Keys == m.Keys;
  }

  /** withBgSync reads the callback, the method and the flag, and hands the body and method on. */
  lemma PostOptionsRead(optimistic: Option<bool>)
    ensures var m := PostOptions(optimistic);
      && Get(m, "bgSync") == Callback && Get(m, "method") == Str("POST")
      && WithBgSync.IsOptimistic(m) == (optimistic != Some(false))
      && WithBgSync.MethodCheck(Get(m, "method")).None?
  {
    WithBgSync.PostSupported();
  }

  lemma PostOptimism(optimistic: Option<bool>)
    ensures WithBgSync.IsOptimistic(OptionsOf(Passed(PostOptions(optimistic)))) <==> optimistic != Some(false)
  {
    PostOptionsRead(optimistic);
  }

  lemma PostCallback(optimistic: Option<bool>)
    ensures Get(OptionsOf(Passed(PostOptions(optimistic))), "bgSync") == Callback
    ensures Get(OptionsOf(Passed(PostOptions(optimistic))), "method") == Str("POST")
  {
    PostOptionsRead(optimistic);
  }

  lemma PostParams(optimistic: Option<bool>)
    ensures WithBgSync.Params(PostOptions(optimistic)) == PostBody
  {
    var m := PostOptions(optimistic);
    assert WithBgSync.Params(m).Keys == PostBody.Keys;
  }

  /** The first call's body and the retry's marked options ask for no auth, caching or bgSync. */
  lemma PostBodyPlain()
    ensures Plain(PostBody) && Plain(WithBgSync.RetryOptions(PostBody))
  {
    var r := WithBgSync.RetryOptions(PostBody);
    assert Get(r, "authClient") == Undefined && Get(r, "bgSync") == Undefined;
    assert Get(r, "cache") == Undefined && Get(r, "cacheStore") == Undefined;
  }

  /** fetch answers "offline" first and `second` next; the callback answers as scripted. */
  function OfflineWorld(second: string, answers: seq<Answer>): World {
    TestWorld([ReplyStatus("offline"), ReplyStatus(second)], answers)
  }

  /** A fetch of withAbort(defaultExport) on plain options, with the reply the world scripts. */
  lemma AbortableFetch(m: Options, w: World, text: string, after: World)
    requires Plain(m)
    requires |w.fetches| > 0 && w.fetches[0] == ReplyStatus(text) && w.platform == Missing
    requires after == w.(fetches := w.fetches[1..], nextId := w.nextId + 2)
    ensures var s := Run(TestAbortable, Url, Passed(m), w);
      && Observed(s.effects) == Observation([Delivered(m, Missing, w.nextId)], [], [], [])
      && s.call == Returned(Pending(Fulfilled(Obj(map["statusText" := Str(text)])), Some(AbortHandle(w.nextId))))
      && s.world == after
  {
    TestAbortableRun(Url, m, w);
  }

  /** The first call of withBgSync in the request under test: one unmarked fetch, answered "offline". */
  lemma FirstFetch(second: string, answers: seq<Answer>)
    ensures var s := Run(TestAbortable, Url, Passed(PostBody), OfflineWorld(second, answers));
      && Observed(s.effects) == Observation([Delivered(PostBody, Missing, 0)], [], [], [])
      && s.call == Returned(Pending(Fulfilled(Obj(map["statusText" := Str("offline")])), Some(AbortHandle(0))))
      && s.world == World([ReplyStatus(second)], answers, [], Missing, true, 2)
  {
    var w := OfflineWorld(second, answers);
    PostBodyPlain();
    assert w.fetches[1..] == [ReplyStatus(second)];
    AbortableFetch(PostBody, w, "offline", World([ReplyStatus(second)], answers, [], Missing, true, 2));
  }

  /** withBgSync's first call over a stack is a run of that stack on the options minus the bgSync keys. */
  lemma FirstCallRuns(s: Stack, url: string, args: Args, w: World)
    ensures WithBgSync.FirstCall(Build(s), url, args, w) == Run(s, url, Passed(WithBgSync.Params(OptionsOf(args))), w)
  {
  }

  /** The first call over a stack answered `{ statusText: "offline" }`. */
  lemma WentOfflineOver(s: Stack, url: string, args: Args, w: World, h: Option<Handle>)
    requires Truthy(Get(OptionsOf(args), "bgSync")) && WithBgSync.MethodCheck(Get(OptionsOf(args), "method")).None?
    requires Run(s, url, Passed(WithBgSync.Params(OptionsOf(args))), w).call
      == Returned(Pending(Fulfilled(Obj(map["statusText" := Str("offline")])), h))
    ensures WithBgSync.WentOffline(Build(s), url, args, w)
  {
    FirstCallRuns(s, url, args, w);
  }

  /** In the request under test the POST goes offline first. */
  lemma FirstCallOffline(optimistic: Option<bool>, second: string, answers: seq<Answer>)
    ensures var w := OfflineWorld(second, answers);
      && WithBgSync.FirstCall(Build(TestAbortable), Url, Passed(PostOptions(optimistic)), w) == Run(TestAbortable, Url, Passed(PostBody), w)
      && WithBgSync.WentOffline(Build(TestAbortable), Url, Passed(PostOptions(optimistic)), w)
  {
    var w := OfflineWorld(second, answers);
    PostOptionsRead(optimistic);
    PostParams(optimistic);
    FirstFetch(second, answers);
    FirstCallRuns(TestAbortable, Url, Passed(PostOptions(optimistic)), w);
    WentOfflineOver(TestAbortable, Url, Passed(PostOptions(optimistic)), w, Some(AbortHandle(0)));
  }

  /** The marked retry, sent in the world the first call left. */
  lemma RetryFetch(second: string, answers: seq<Answer>)
    ensures var w1 := World([ReplyStatus(second)], answers, [], Missing, true, 2);
      var s := Run(TestAbortable, Url, Passed(WithBgSync.RetryOptions(PostBody)), w1);
      && Observed(s.effects) == Observation([Delivered(WithBgSync.RetryOptions(PostBody), Missing, 2)], [], [], [])
      && s.call == Returned(Pending(Fulfilled(Obj(map["statusText" := Str(second)])), Some(AbortHandle(2))))
      && s.world == World([], answers, [], Missing, true, 4)
  {
    var w1 := World([ReplyStatus(second)], answers, [], Missing, true, 2);
    PostBodyPlain();
    assert w1.fetches[1..] == [];
    AbortableFetch(WithBgSync.RetryOptions(PostBody), w1, second, World([], answers, [], Missing, true, 4));
  }

  /** Two layer calls, each followed by the trace of the call. */
  lemma ObservedTwoCalls(x: Effect, y: Effect, a: seq<Effect>, b: seq<Effect>)
    requires Plumbing(x) && Plumbing(y)
    ensures Observed([x] + a + [y] + b) == Merge(Observed(a), Observed(b))
  {
    ObservedPrefix([x], a);
    ObservedSuffix([x] + a, [y]);
    ObservedAppend([x] + a + [y], b);
  }

  /** Two layer calls and their traces, then an effect and a tail. */
  lemma ObservedRetried(x: Effect, y: Effect, a: seq<Effect>, b: seq<Effect>, c: Effect, tail: seq<Effect>)
    requires Plumbing(x) && Plumbing(y)
    ensures Observed([x] + a + [y] + b + [c] + tail) == Merge(Merge(Observed(a), Observed(b)), Observed([c] + tail))
  {
    var pre := [x] + a + [y] + b;
    ObservedTwoCalls(x, y, a, b);
    assert pre + [c] + tail == pre + ([c] + tail);
    ObservedAppend(pre, [c] + tail);
  }

  /** A layer call and its trace, a callback call, and a second layer call and its trace. */
  lemma ObservedConfirmed(x: Effect, cb: Value, y: Effect, a: seq<Effect>, b: seq<Effect>)
    requires Plumbing(x) && Plumbing(y)
    ensures Observed([x] + a + [Called(cb)] + [y] + b) == Merge(Merge(Observed(a), Observe(Called(cb))), Observed(b))
  {
    ObservedCalledAfter(x, cb, a);
    ObservedSuffix([x] + a + [Called(cb)], [y]);
    ObservedAppend([x] + a + [Called(cb)] + [y], b);
  }

  /** A layer call and its trace, then a callback call. */
  lemma ObservedCalledAfter(x: Effect, cb: Value, a: seq<Effect>)
    requires Plumbing(x)
    ensures Observed([x] + a + [Called(cb)]) == Merge(Observed(a), Observe(Called(cb)))
  {
    ObservedPrefix([x], a);
    ObservedAppend([x] + a, [Called(cb)]);
    ObservedOne(Called(cb));
  }

  /** Two fetches, then what the tail shows. */
  lemma MergeTwoFetches(f1: Options, f2: Options, tail: Observation)
    requires tail.fetches == [] && tail.stores == []
    ensures Merge(Merge(Observation([f1], [], [], []), Observation([f2], [], [], [])), tail)
      == Observation([f1, f2], tail.callbacks, tail.posted, [])
  {
    var none: seq<Value> := [];
    assert none + none == none && none + tail.callbacks == tail.callbacks && none + tail.posted == tail.posted;
    var noStore: seq<Effect> := [];
    assert noStore + noStore + noStore == noStore;
    assert [f1] + [f2] + [] == [f1, f2];
  }

  /** What a test sees of the callback call and, when `removed`, the removal message. */
  lemma ObservedCallbackTail(cb: Value, removed: bool, message: Value)
    ensures Observed([Called(cb)] + (if removed then [Posted(message)] else []))
      == Observation([], [cb], if removed then [message] else [], [])
  {
    var posted := if removed then [Posted(message)] else [];
    var fx := [Called(cb)] + posted;
    assert fx[1..] == posted;
    var none: seq<Value> := [];
    var noFetch: seq<Options> := [];
    var noStore: seq<Effect> := [];
    assert noFetch + noFetch == noFetch && noStore + noStore == noStore && [cb] + none == [cb];
    if removed {
      ObservedOne(Posted(message));
      assert none + [message] == [message];
    } else {
      assert none + none == none;
    }
  }

  /** withBgSync's marked retry over a stack is a run of that stack in the world the first call left. */
  lemma RetryCallRuns(s: Stack, url: string, args: Args, w: World)
    ensures WithBgSync.RetryCall(Build(s), url, args, w) ==
      Run(s, url, Passed(WithBgSync.RetryOptions(WithBgSync.Params(OptionsOf(args)))), Run(s, url, Passed(WithBgSync.Params(OptionsOf(args))), w).world)
  {
  }

  /** Of a stack's run: what a test sees, the outcome and `.abort`. */
  predicate Answered(r: Step, seen: Observation, o: Settled, h: Option<Handle>) {
    Observed(r.effects) == seen && r.call == Returned(Pending(o, h))
  }

  /** withBgSync over a stack: the first call answers "offline", seen as `first`, with `.abort` `h`. */
  ghost predicate OfflineFirst(s: Stack, url: string, args: Args, w: World, first: Observation, h: Option<Handle>) {
    && WithBgSync.WentOffline(Build(s), url, args, w)
    && Answered(Run(s, url, Passed(WithBgSync.Params(OptionsOf(args))), w), first, Fulfilled(Obj(map["statusText" := Str("offline")])), h)
  }

  /** The first call leaves the world `later`. */
  predicate FirstLeaves(s: Stack, url: string, args: Args, w: World, later: World) {
    Run(s, url, Passed(WithBgSync.Params(OptionsOf(args))), w).world == later
  }

  /** The marked retry, sent in the world the first call left, is seen as `retried` and settles as `o`. */
  predicate RetryAnswered(s: Stack, url: string, args: Args, w: World, retried: Observation, o: Settled, h: Option<Handle>) {
    var p := WithBgSync.Params(OptionsOf(args));
    Answered(Run(s, url, Passed(WithBgSync.RetryOptions(p)), Run(s, url, Passed(p), w).world), retried, o, h)
  }

  /** The marked retry, sent in the world the first call left, leaves the world `later`. */
  predicate RetryLeaves(s: Stack, url: string, args: Args, w: World, later: World) {
    var p := WithBgSync.Params(OptionsOf(args));
    Run(s, url, Passed(WithBgSync.RetryOptions(p)), Run(s, url, Passed(p), w).world).world == later
  }

  /** A reply whose statusText is not "bgSynced". */
  predicate NotSynced(reply: Value) {
    Prop(reply, "statusText").Some? && Prop(reply, "statusText").value != Str("bgSynced")
  }

  /** `{ statusText: text }` is not a "bgSynced" reply unless the text says so. */
  lemma ReplyNotSynced(text: string)
    ensures NotSynced(Obj(map["statusText" := Str(text)])) <==> text != "bgSynced"
  {
  }

  /** The reply of a retry the service worker queued. */
  const SyncedReply: Value := Obj(map["statusText" := Str("bgSynced")])

  /** withBgSync over a stack, optimistic, offline, and a marked retry answered `reply`, which is not "bgSynced". */
  ghost predicate OptimisticNotSyncedCase(s: Stack, url: string, args: Args, w: World, first: Observation, h: Option<Handle>,
                                          retried: Observation, reply: Value, h2: Option<Handle>) {
    && OfflineFirst(s, url, args, w, first, h) && WithBgSync.IsOptimistic(OptionsOf(args))
    && RetryAnswered(s, url, args, w, retried, Fulfilled(reply), h2) && NotSynced(reply)
  }

  /**
   * withBgSync over any stack, optimistic, offline, and a retry that does
   * not report "bgSynced": the caller sees both fetches and the sentinel.
   */
  lemma OptimisticNotSyncedOver(s: Stack, url: string, args: Args, w: World, first: Observation, h: Option<Handle>,
                                retried: Observation, reply: Value, h2: Option<Handle>)
    requires OptimisticNotSyncedCase(s, url, args, w, first, h, retried, reply, h2)
    ensures Answered(Run(BgSyncOver(s), url, args, w), Merge(first, retried), Fulfilled(WithBgSync.OfflineResponse()), h)
  {
    var p := WithBgSync.Params(OptionsOf(args));
    var f := Run(s, url, Passed(p), w);
    var retry := Run(s, url, Passed(WithBgSync.RetryOptions(p)), f.world);
    FirstCallRuns(s, url, args, w);
    RetryCallRuns(s, url, args, w);
    NotSyncedTraceOf(Build(s), url, args, w, f, retry);
    BgSyncOverCall(s, url, args, w);
    ObservedTwoCalls(Invoke(BgSyncLayer, url, Passed(p)), Invoke(BgSyncLayer, url, Passed(WithBgSync.RetryOptions(p))), f.effects, retry.effects);
  }

  /**
   * withBgSync over a stack, optimistic, offline, a callback in the
   * options, and a marked retry answered "bgSynced" that leaves a world
   * whose next callback answer settles.
   */
  ghost predicate OptimisticSyncedCase(s: Stack, url: string, args: Args, w: World, first: Observation, h: Option<Handle>,
                                       retried: Observation, h2: Option<Handle>, later: World) {
    && OfflineFirst(s, url, args, w, first, h) && WithBgSync.IsOptimistic(OptionsOf(args))
    && Get(OptionsOf(args), "bgSync").Func?
    && RetryAnswered(s, url, args, w, retried, Fulfilled(SyncedReply), h2) && RetryLeaves(s, url, args, w, later)
    && |later.answers| > 0 && (later.answers[0].Resolves? || later.answers[0].Rejects?)
  }

  /**
   * withBgSync over any stack, optimistic, offline, and a retry that
   * reports "bgSynced": the callback is called once after both fetches,
   * the removal message is posted exactly when it resolves (with a
   * service-worker controller), and the caller gets the sentinel.
   */
  lemma OptimisticSyncedOver(s: Stack, url: string, args: Args, w: World, first: Observation, h: Option<Handle>,
                             retried: Observation, h2: Option<Handle>, later: World)
    requires OptimisticSyncedCase(s, url, args, w, first, h, retried, h2, later)
    ensures var m := OptionsOf(args);
      var removed := later.answers[0].Resolves? && later.serviceWorker;
      Answered(Run(BgSyncOver(s), url, args, w),
               Merge(Merge(first, retried), Observation([], [Get(m, "bgSync")], if removed then [WithBgSync.RemoveMessage(url, Get(m, "method"))] else [], [])),
               Fulfilled(WithBgSync.OfflineResponse()), h)
  {
    var m := OptionsOf(args);
    var p := WithBgSync.Params(m);
    var f := Run(s, url, Passed(p), w);
    var retry := Run(s, url, Passed(WithBgSync.RetryOptions(p)), f.world);
    var message := WithBgSync.RemoveMessage(url, Get(m, "method"));
    var removed := later.answers[0].Resolves? && later.serviceWorker;
    OptimisticSyncedTrace(s, url, args, w, later);
    ObservedRetried(Invoke(BgSyncLayer, url, Passed(p)), Invoke(BgSyncLayer, url, Passed(WithBgSync.RetryOptions(p))),
                    f.effects, retry.effects, Called(Get(m, "bgSync")), if removed then [Posted(message)] else []);
    ObservedCallbackTail(Get(m, "bgSync"), removed, message);
  }

  /** The trace of OptimisticSyncedOver, from withBgSync's own lemma. */
  lemma OptimisticSyncedTrace(s: Stack, url: string, args: Args, w: World, later: World)
    requires WithBgSync.WentOffline(Build(s), url, args, w) && WithBgSync.IsOptimistic(OptionsOf(args))
    requires Get(OptionsOf(args), "bgSync").Func?
    requires var p := WithBgSync.Params(OptionsOf(args));
      var retry := Run(s, url, Passed(WithBgSync.RetryOptions(p)), Run(s, url, Passed(p), w).world);
      && retry.call.Returned? && retry.call.pending.outcome == Fulfilled(SyncedReply)
      && retry.world == later
    requires |later.answers| > 0 && (later.answers[0].Resolves? || later.answers[0].Rejects?)
    ensures var m := OptionsOf(args);
      var p := WithBgSync.Params(m);
      var f := Run(s, url, Passed(p), w);
      var retry := Run(s, url, Passed(WithBgSync.RetryOptions(p)), f.world);
      var removed := later.answers[0].Resolves? && later.serviceWorker;
      Run(BgSyncOver(s), url, args, w) ==
        Step([Invoke(BgSyncLayer, url, Passed(p))] + f.effects + [Invoke(BgSyncLayer, url, Passed(WithBgSync.RetryOptions(p)))] + retry.effects
             + [Called(Get(m, "bgSync"))] + (if removed then [Posted(WithBgSync.RemoveMessage(url, Get(m, "method")))] else []),
             Returned(Pending(Fulfilled(WithBgSync.OfflineResponse()), f.call.pending.abort)),
             later.(answers := later.answers[1..]))
  {
    var p := WithBgSync.Params(OptionsOf(args));
    var f := Run(s, url, Passed(p), w);
    var retry := Run(s, url, Passed(WithBgSync.RetryOptions(p)), f.world);
    FirstCallRuns(s, url, args, w);
    RetryCallRuns(s, url, args, w);
    SyncedTraceOf(Build(s), url, args, w, f, retry, later);
    BgSyncOverCall(s, url, args, w);
  }

  /** withBgSync over a stack is withBgSync's call around the request the stack below describes. */
  lemma BgSyncOverCall(s: Stack, url: string, args: Args, w: World)
    ensures Run(BgSyncOver(s), url, args, w) == WithBgSync.BgSyncCall(Build(s), url, args, w)
  {
  }

  /** OptimisticNotSyncedSkipsCallback, with the first call and the retry named. */
  lemma NotSyncedTraceOf(inner: Request, url: string, args: Args, w: World, f: Step, retry: Step)
    requires f == WithBgSync.FirstCall(inner, url, args, w) && retry == WithBgSync.RetryCall(inner, url, args, w)
    requires WithBgSync.WentOffline(inner, url, args, w) && WithBgSync.IsOptimistic(OptionsOf(args))
    requires retry.call.Returned? && retry.call.pending.outcome.Fulfilled? && NotSynced(retry.call.pending.outcome.value)
    ensures var p := WithBgSync.Params(OptionsOf(args));
      WithBgSync.BgSyncCall(inner, url, args, w) ==
        Step([Invoke(BgSyncLayer, url, Passed(p))] + f.effects + [Invoke(BgSyncLayer, url, Passed(WithBgSync.RetryOptions(p)))] + retry.effects,
             Returned(Pending(Fulfilled(WithBgSync.OfflineResponse()), f.call.pending.abort)), retry.world)
  {
    WithBgSync.OptimisticNotSyncedSkipsCallback(inner, url, args, w);
  }

  /** PessimisticResolvedRetries, with the first call and the retry named. */
  lemma ResolvedTraceOf(inner: Request, url: string, args: Args, w: World, f: Step, retry: Step)
    requires f == WithBgSync.FirstCall(inner, url, args, w)
    requires |f.world.answers| > 0 && f.world.answers[0].Resolves?
    requires retry == inner(url, Passed(WithBgSync.RetryOptions(WithBgSync.Params(OptionsOf(args)))), f.world.(answers := f.world.answers[1..]))
    requires WithBgSync.WentOffline(inner, url, args, w) && !WithBgSync.IsOptimistic(OptionsOf(args))
    requires Get(OptionsOf(args), "bgSync").Func?
    ensures var m := OptionsOf(args);
      var p := WithBgSync.Params(m);
      var r := WithBgSync.BgSyncCall(inner, url, args, w);
      && r.effects == [Invoke(BgSyncLayer, url, Passed(p))] + f.effects + [Called(Get(m, "bgSync"))]
                      + [Invoke(BgSyncLayer, url, Passed(WithBgSync.RetryOptions(p)))] + retry.effects
      && r.call.Returned? && r.call.pending.abort == f.call.pending.abort
      && r.call.pending.outcome == (if Adopt(retry.call).Unsettled? then Unsettled else Fulfilled(WithBgSync.OfflineResponse()))
  {
    WithBgSync.PessimisticResolvedRetries(inner, url, args, w);
  }

  /** OptimisticSyncedCallsCallback, with the first call and the retry named. */
  lemma SyncedTraceOf(inner: Request, url: string, args: Args, w: World, f: Step, retry: Step, later: World)
    requires f == WithBgSync.FirstCall(inner, url, args, w) && retry == WithBgSync.RetryCall(inner, url, args, w)
    requires WithBgSync.WentOffline(inner, url, args, w) && WithBgSync.IsOptimistic(OptionsOf(args))
    requires Get(OptionsOf(args), "bgSync").Func?
    requires retry.call.Returned? && retry.call.pending.outcome == Fulfilled(SyncedReply) && retry.world == later
    requires |later.answers| > 0 && (later.answers[0].Resolves? || later.answers[0].Rejects?)
    ensures var m := OptionsOf(args);
      var p := WithBgSync.Params(m);
      var removed := later.answers[0].Resolves? && later.serviceWorker;
      WithBgSync.BgSyncCall(inner, url, args, w) ==
        Step([Invoke(BgSyncLayer, url, Passed(p))] + f.effects + [Invoke(BgSyncLayer, url, Passed(WithBgSync.RetryOptions(p)))] + retry.effects
             + [Called(Get(m, "bgSync"))] + (if removed then [Posted(WithBgSync.RemoveMessage(url, Get(m, "method")))] else []),
             Returned(Pending(Fulfilled(WithBgSync.OfflineResponse()), f.call.pending.abort)),
             later.(answers := later.answers[1..]))
  {
    WithBgSync.OptimisticSyncedCallsCallback(inner, url, args, w);
  }

  /**
   * withBgSync over a stack, pessimistic, offline, a callback in the
   * options, and a first call that leaves a world whose next callback
   * answer rejects.
   */
  ghost predicate PessimisticRejectedCase(s: Stack, url: string, args: Args, w: World, first: Observation, h: Option<Handle>, later: World) {
    && OfflineFirst(s, url, args, w, first, h) && !WithBgSync.IsOptimistic(OptionsOf(args))
    && Get(OptionsOf(args), "bgSync").Func?
    && FirstLeaves(s, url, args, w, later) && |later.answers| > 0 && later.answers[0].Rejects?
  }

  /** withBgSync over any stack, pessimistic, offline, and a callback that rejects: no retry, the sentinel. */
  lemma PessimisticRejectedOver(s: Stack, url: string, args: Args, w: World, first: Observation, h: Option<Handle>, later: World)
    requires PessimisticRejectedCase(s, url, args, w, first, h, later)
    ensures Answered(Run(BgSyncOver(s), url, args, w), Merge(first, Observe(Called(Get(OptionsOf(args), "bgSync")))),
                     Fulfilled(WithBgSync.OfflineResponse()), h)
  {
    var p := WithBgSync.Params(OptionsOf(args));
    FirstCallRuns(s, url, args, w);
    WithBgSync.PessimisticRejectedNoRetry(Build(s), url, args, w);
    ObservedCalledAfter(Invoke(BgSyncLayer, url, Passed(p)), Get(OptionsOf(args), "bgSync"), Run(s, url, Passed(p), w).effects);
  }

  /**
   * withBgSync over a stack, pessimistic, offline, a callback in the
   * options that resolves, and a marked retry, sent once the callback has
   * answered, that settles as `o`.
   */
  ghost predicate PessimisticResolvedCase(s: Stack, url: string, args: Args, w: World, first: Observation, h: Option<Handle>,
                                          later: World, retried: Observation, o: Settled, h2: Option<Handle>) {
    && OfflineFirst(s, url, args, w, first, h) && !WithBgSync.IsOptimistic(OptionsOf(args))
    && Get(OptionsOf(args), "bgSync").Func?
    && FirstLeaves(s, url, args, w, later) && |later.answers| > 0 && later.answers[0].Resolves?
    && Answered(Run(s, url, Passed(WithBgSync.RetryOptions(WithBgSync.Params(OptionsOf(args)))), later.(answers := later.answers[1..])), retried, o, h2)
    && !o.Unsettled?
  }

  /**
   * withBgSync over any stack, pessimistic, offline, and a callback that
   * resolves: the callback is called, then one marked retry is sent; the
   * caller gets the sentinel once the retry settles.
   */
  lemma PessimisticResolvedOver(s: Stack, url: string, args: Args, w: World, first: Observation, h: Option<Handle>,
                                later: World, retried: Observation, o: Settled, h2: Option<Handle>)
    requires PessimisticResolvedCase(s, url, args, w, first, h, later, retried, o, h2)
    ensures Answered(Run(BgSyncOver(s), url, args, w), Merge(Merge(first, Observe(Called(Get(OptionsOf(args), "bgSync")))), retried),
                     Fulfilled(WithBgSync.OfflineResponse()), h)
  {
    var p := WithBgSync.Params(OptionsOf(args));
    var f := Run(s, url, Passed(p), w);
    var retry := Run(s, url, Passed(WithBgSync.RetryOptions(p)), f.world.(answers := f.world.answers[1..]));
    FirstCallRuns(s, url, args, w);
    ResolvedTraceOf(Build(s), url, args, w, f, retry);
    BgSyncOverCall(s, url, args, w);
    ObservedConfirmed(Invoke(BgSyncLayer, url, Passed(p)), Get(OptionsOf(args), "bgSync"),
                      Invoke(BgSyncLayer, url, Passed(WithBgSync.RetryOptions(p))), f.effects, retry.effects);
  }

  /** A bgSync call whose first response, from the stack below, is not "offline". */
  ghost predicate OnlineCase(s: Stack, url: string, args: Args, w: World, o: Settled, h: Option<Handle>) {
    && Truthy(Get(OptionsOf(args), "bgSync")) && WithBgSync.MethodCheck(Get(OptionsOf(args), "method")).None?
    && Run(s, url, Passed(WithBgSync.Params(OptionsOf(args))), w).call == Returned(Pending(o, h))
    && (o.Rejected? || (o.Fulfilled? && Prop(o.value, "statusText").Some? && Prop(o.value, "statusText").value != Str("offline")))
  }

  /** withBgSync over any stack, when the first response is not "offline": the call is the stack's own. */
  lemma OnlineOver(s: Stack, url: string, args: Args, w: World, o: Settled, h: Option<Handle>)
    requires OnlineCase(s, url, args, w, o, h)
    ensures SameView(Run(BgSyncOver(s), url, args, w), Run(s, url, Passed(WithBgSync.Params(OptionsOf(args))), w))
  {
    var p := WithBgSync.Params(OptionsOf(args));
    var f := Run(s, url, Passed(p), w);
    FirstCallRuns(s, url, args, w);
    OnlineTraceOf(Build(s), url, args, w, f, o, h);
    BgSyncOverCall(s, url, args, w);
    ObservedForward(BgSyncLayer, url, Passed(p), f.effects);
  }

  /** OnlineResponsePassedOn, with the first call named. */
  lemma OnlineTraceOf(inner: Request, url: string, args: Args, w: World, f: Step, o: Settled, h: Option<Handle>)
    requires f == WithBgSync.FirstCall(inner, url, args, w)
    requires Truthy(Get(OptionsOf(args), "bgSync")) && WithBgSync.MethodCheck(Get(OptionsOf(args), "method")).None?
    requires f.call == Returned(Pending(o, h))
    requires o.Rejected? || (o.Fulfilled? && Prop(o.value, "statusText").Some? && Prop(o.value, "statusText").value != Str("offline"))
    ensures WithBgSync.BgSyncCall(inner, url, args, w) ==
      Step([Invoke(BgSyncLayer, url, Passed(WithBgSync.Params(OptionsOf(args))))] + f.effects, f.call, f.world)
  {
    WithBgSync.OnlineResponsePassedOn(inner, url, args, w);
  }

  /** Two single fetches merge into the pair. */
  lemma MergeFetches(f1: Options, f2: Options, callbacks: seq<Value>, posted: seq<Value>)
    ensures Merge(Merge(Observation([f1], [], [], []), Observation([f2], [], [], [])), Observation([], callbacks, posted, []))
      == Observation([f1, f2], callbacks, posted, [])
    ensures Merge(Merge(Observation([f1], [], [], []), Observation([], callbacks, posted, [])), Observation([f2], [], [], []))
      == Observation([f1, f2], callbacks, posted, [])
  {
    var none: seq<Value> := [];
    var noStore: seq<Effect> := [];
    assert none + none == none && none + callbacks == callbacks && none + posted == posted;
    assert callbacks + none == callbacks && posted + none == posted;
    assert noStore + noStore + noStore == noStore;
    assert [f1] + [f2] + [] == [f1, f2] && [f1] + [] + [f2] == [f1, f2];
  }

  /** A fetch, then a callback call. */
  lemma MergeCallbackAfter(f1: Options, cb: Value)
    ensures Merge(Observation([f1], [], [], []), Observe(Called(cb))) == Observation([f1], [cb], [], [])
  {
    var none: seq<Value> := [];
    var noFetch: seq<Options> := [];
    var noStore: seq<Effect> := [];
    assert [f1] + noFetch == [f1] && none + [cb] == [cb] && none + none == none && noStore + noStore == noStore;
  }

  /** A fetch, a callback call, and a second fetch. */
  lemma MergeCallbackBetween(f1: Options, cb: Value, f2: Options)
    ensures Merge(Merge(Observation([f1], [], [], []), Observe(Called(cb))), Observation([f2], [], [], []))
      == Observation([f1, f2], [cb], [], [])
  {
    MergeCallbackAfter(f1, cb);
    var none: seq<Value> := [];
    var noStore: seq<Effect> := [];
    assert [f1] + [f2] == [f1, f2] && [cb] + none == [cb] && none + none == none && noStore + noStore == noStore;
  }

  /** The options of the two fetches of an offline scenario: the first, and the marked retry. */
  function OfflineFetches(): seq<Options> {
    [FirstSent(), RetrySent()]
  }

  /** What fetch receives for the first call of an offline scenario. */
  function FirstSent(): Options {
    Delivered(PostBody, Missing, 0)
  }

  /** What fetch receives for the marked retry of an offline scenario. */
  function RetrySent(): Options {
    Delivered(WithBgSync.RetryOptions(PostBody), Missing, 2)
  }

  /** The bgSync scenarios' request: the cache layer is not engaged and passes the POST through. */
  lemma RequestReachesSynced(optimistic: Option<bool>, w: World)
    ensures SameView(Run(TestRequest, Url, Passed(PostOptions(optimistic)), w), Run(TestSynced, Url, Passed(PostOptions(optimistic)), w))
  {
    PostOptionsUncached(optimistic);
    CachePassesOn(TestSynced, Undefined, Url, Passed(PostOptions(optimistic)), PostOptions(optimistic), w);
  }

  /** What a test sees of the bgSync layer is what it sees of the request under test. */
  lemma AtRequest(optimistic: Option<bool>, w: World, merged: Observation, seen: Observation, o: Settled, h: Option<Handle>)
    requires Answered(Run(TestSynced, Url, Passed(PostOptions(optimistic)), w), merged, o, h)
    requires merged == seen
    ensures Answered(Run(TestRequest, Url, Passed(PostOptions(optimistic)), w), seen, o, h)
  {
    RequestReachesSynced(optimistic, w);
  }

  /** Only the retry of an offline scenario carries the `bgSync: "1"` header. */
  lemma RetryMarked()
    ensures !MarkedRetry(FirstSent()) && MarkedRetry(RetrySent())
  {
    PostBodyPlain();
    MarkOnlyOnRetry(PostBody, 0);
    MarkOnlyOnRetry(PostBody, 2);
  }

  /** The message posted to the service worker for the test's POST. */
  lemma RemoveMessageShape()
    ensures WithBgSync.RemoveMessage(Url, Str("POST")) == Obj(map["type" := Str("removeBgSynced"), "url" := Str("mockUrl"), "method" := Str("POST")])
  {
  }

  /** "should not bgSync a request when online": the response comes through; the callback is never called. */
  lemma OnlineNotSynced()
    ensures var r := Run(TestRequest, Url, Passed(PostOptions(None)), TestWorld([Reply12345], []));
      && r.call == Returned(Pending(Fulfilled(Str("12345")), Some(AbortHandle(0))))
      && Observed(r.effects) == Observation([Delivered(PostBody, Missing, 0)], [], [], [])
  {
    var w := TestWorld([Reply12345], []);
    OnlineSetup();
    OnlineOver(TestAbortable, Url, Passed(PostOptions(None)), w, Fulfilled(Str("12345")), Some(AbortHandle(0)));
    OnlineAbortable();
    PostParams(None);
    RequestReachesSynced(None, w);
  }

  lemma OnlineSetup()
    ensures OnlineCase(TestAbortable, Url, Passed(PostOptions(None)), TestWorld([Reply12345], []), Fulfilled(Str("12345")), Some(AbortHandle(0)))
  {
    OnlineGuards();
    OnlineFirstCall();
    NoStatusText();
  }

  lemma OnlineGuards()
    ensures Truthy(Get(OptionsOf(Passed(PostOptions(None))), "bgSync"))
    ensures WithBgSync.MethodCheck(Get(OptionsOf(Passed(PostOptions(None))), "method")).None?
  {
    PostCallback(None);
    WithBgSync.PostSupported();
  }

  lemma OnlineFirstCall()
    ensures Run(TestAbortable, Url, Passed(WithBgSync.Params(OptionsOf(Passed(PostOptions(None))))), TestWorld([Reply12345], [])).call
      == Returned(Pending(Fulfilled(Str("12345")), Some(AbortHandle(0))))
  {
    var w := TestWorld([Reply12345], []);
    PassedParams(None);
    SameRun(TestAbortable, WithBgSync.Params(OptionsOf(Passed(PostOptions(None)))), PostBody, w, w);
    OnlineAbortable();
  }

  lemma PassedParams(optimistic: Option<bool>)
    ensures WithBgSync.Params(OptionsOf(Passed(PostOptions(optimistic)))) == PostBody
  {
    PostParams(optimistic);
  }

  /** A string answer has no `statusText`. */
  lemma NoStatusText()
    ensures Prop(Str("12345"), "statusText") == Some(Undefined)
  {
  }

  /** The online POST, below withBgSync: one fetch, the reply's value. */
  lemma OnlineAbortable()
    ensures var s := Run(TestAbortable, Url, Passed(PostBody), TestWorld([Reply12345], []));
      && s.call == Returned(Pending(Fulfilled(Str("12345")), Some(AbortHandle(0))))
      && Observed(s.effects) == Observation([Delivered(PostBody, Missing, 0)], [], [], [])
  {
    PostBodyPlain();
    TestAbortableRun(Url, PostBody, TestWorld([Reply12345], []));
    Reply12345Outcome();
  }

  lemma Reply12345Outcome()
    ensures Outcome(Reply12345) == Fulfilled(Str("12345"))
  {
  }

  /** "should not bgSync a request on GET method": the call throws an error that says "not supported". */
  lemma GetNotSupported()
    ensures var r := Run(TestRequest, Url, Passed(map["bgSync" := Callback]), TestWorld([Reply12345], []));
      && r.call == Threw(WithBgSync.NotSupported(Undefined))
      && Mentions(WithBgSync.NotSupported(Undefined).message, "not supported")
      && r.effects == [Invoke(CacheLayer, Url, Passed(map["bgSync" := Callback]))]
  {
    var m := map["bgSync" := Callback];
    var w := TestWorld([Reply12345], []);
    assert WithCache.Stripped(m) == m;
    CacheOverForwards(TestSynced, Undefined, Url, Passed(m), w);
    BgSyncOverThrows(TestAbortable, Url, Passed(m), w);
    WithBgSync.UnsupportedMethodThrows(Build(TestAbortable), Url, Passed(m), w);
  }

  /** The first call and the marked retry of an offline scenario, in the form withBgSync's lemmas read them. */
  lemma OfflineRuns(optimistic: Option<bool>, second: string, answers: seq<Answer>)
    ensures var w := OfflineWorld(second, answers);
      var p := WithBgSync.Params(OptionsOf(Passed(PostOptions(optimistic))));
      var f := Run(TestAbortable, Url, Passed(p), w);
      && Answered(f, Observation([FirstSent()], [], [], []), Fulfilled(Obj(map["statusText" := Str("offline")])), Some(AbortHandle(0)))
      && Answered(Run(TestAbortable, Url, Passed(WithBgSync.RetryOptions(p)), f.world),
                  Observation([RetrySent()], [], [], []), Fulfilled(Obj(map["statusText" := Str(second)])), Some(AbortHandle(2)))
      && f.world == World([ReplyStatus(second)], answers, [], Missing, true, 2)
      && Run(TestAbortable, Url, Passed(WithBgSync.RetryOptions(p)), f.world).world == World([], answers, [], Missing, true, 4)
  {
    PostParams(optimistic);
    FirstFetch(second, answers);
    RetryFetch(second, answers);
  }

  /** In the request under test the POST is answered "offline" first. */
  lemma FirstOffline(optimistic: Option<bool>, second: string, answers: seq<Answer>)
    ensures OfflineFirst(TestAbortable, Url, Passed(PostOptions(optimistic)), OfflineWorld(second, answers),
                         Observation([FirstSent()], [], [], []), Some(AbortHandle(0)))
    ensures FirstLeaves(TestAbortable, Url, Passed(PostOptions(optimistic)), OfflineWorld(second, answers),
                        World([ReplyStatus(second)], answers, [], Missing, true, 2))
  {
    FirstCallOffline(optimistic, second, answers);
    OfflineRuns(optimistic, second, answers);
  }

  /** In the request under test the marked retry is answered `second`. */
  lemma RetryAnsweredSecond(optimistic: Option<bool>, second: string, answers: seq<Answer>)
    ensures RetryAnswered(TestAbortable, Url, Passed(PostOptions(optimistic)), OfflineWorld(second, answers),
                          Observation([RetrySent()], [], [], []), Fulfilled(Obj(map["statusText" := Str(second)])), Some(AbortHandle(2)))
    ensures RetryLeaves(TestAbortable, Url, Passed(PostOptions(optimistic)), OfflineWorld(second, answers), World([], answers, [], Missing, true, 4))
  {
    OfflineRuns(optimistic, second, answers);
  }

  /** The request under test, optimistic, offline, and a retry answered anything but "bgSynced". */
  lemma OptimisticOffline(second: string, answers: seq<Answer>)
    requires second != "bgSynced"
    ensures OptimisticNotSyncedCase(TestAbortable, Url, Passed(PostOptions(Some(true))), OfflineWorld(second, answers),
                                    Observation([FirstSent()], [], [], []), Some(AbortHandle(0)),
                                    Observation([RetrySent()], [], [], []), Obj(map["statusText" := Str(second)]), Some(AbortHandle(2)))
  {
    FirstOffline(Some(true), second, answers);
    RetryAnsweredSecond(Some(true), second, answers);
    PostOptimism(Some(true));
    ReplyNotSynced(second);
  }

  /** Optimistic, offline, and a retry that reports anything but "bgSynced", at withBgSync. */
  lemma OptimisticRetryNotSyncedAtBgSync(second: string, answers: seq<Answer>)
    requires second != "bgSynced"
    ensures Answered(Run(TestSynced, Url, Passed(PostOptions(Some(true))), OfflineWorld(second, answers)),
                     Merge(Observation([FirstSent()], [], [], []), Observation([RetrySent()], [], [], [])),
                     Fulfilled(WithBgSync.OfflineResponse()), Some(AbortHandle(0)))
  {
    OptimisticOffline(second, answers);
    OptimisticNotSyncedOver(TestAbortable, Url, Passed(PostOptions(Some(true))), OfflineWorld(second, answers),
                            Observation([FirstSent()], [], [], []), Some(AbortHandle(0)),
                            Observation([RetrySent()], [], [], []), Obj(map["statusText" := Str(second)]), Some(AbortHandle(2)));
  }

  /**
   * "should not bgSync if the request fail" (optimistic, the retry answers
   * "invalidResponse"): the sentinel, two fetches, no callback, no message.
   */
  lemma OptimisticRetryNotSynced()
    ensures var r := Run(TestRequest, Url, Passed(PostOptions(Some(true))), OfflineWorld("invalidResponse", [Rejects(Undefined)]));
      && r.call == Returned(Pending(Fulfilled(WithBgSync.OfflineResponse()), Some(AbortHandle(0))))
      && Observed(r.effects) == Observation(OfflineFetches(), [], [], [])
  {
    OptimisticRetryNotSyncedAtBgSync("invalidResponse", [Rejects(Undefined)]);
    MergeFetches(FirstSent(), RetrySent(), [], []);
    MergeNothing(Merge(Observation([FirstSent()], [], [], []), Observation([RetrySent()], [], [], [])));
    AtRequest(Some(true), OfflineWorld("invalidResponse", [Rejects(Undefined)]),
              Merge(Observation([FirstSent()], [], [], []), Observation([RetrySent()], [], [], [])), Observation(OfflineFetches(), [], [], []),
              Fulfilled(WithBgSync.OfflineResponse()), Some(AbortHandle(0)));
  }

  /** The request under test, optimistic, offline, a "bgSynced" retry, and a callback that settles. */
  lemma OptimisticSyncedSetup(optimistic: Option<bool>, answers: seq<Answer>)
    requires optimistic != Some(false)
    requires |answers| > 0 && (answers[0].Resolves? || answers[0].Rejects?)
    ensures OptimisticSyncedCase(TestAbortable, Url, Passed(PostOptions(optimistic)), OfflineWorld("bgSynced", answers),
                                 Observation([FirstSent()], [], [], []), Some(AbortHandle(0)),
                                 Observation([RetrySent()], [], [], []), Some(AbortHandle(2)), World([], answers, [], Missing, true, 4))
  {
    FirstOffline(optimistic, "bgSynced", answers);
    RetryAnsweredSecond(optimistic, "bgSynced", answers);
    PostOptimism(optimistic);
    PostCallback(optimistic);
  }

  /**
   * Optimistic, offline, a "bgSynced" retry, and a callback that settles,
   * at withBgSync: both fetches, the callback once, and the removal
   * message exactly when the callback resolves.
   */
  lemma OptimisticSyncedAtBgSync(optimistic: Option<bool>, answers: seq<Answer>)
    requires optimistic != Some(false)
    requires |answers| > 0 && (answers[0].Resolves? || answers[0].Rejects?)
    ensures Answered(Run(TestSynced, Url, Passed(PostOptions(optimistic)), OfflineWorld("bgSynced", answers)),
                     Merge(Merge(Observation([FirstSent()], [], [], []), Observation([RetrySent()], [], [], [])),
                           Observation([], [Callback], if answers[0].Resolves? then [WithBgSync.RemoveMessage(Url, Str("POST"))] else [], [])),
                     Fulfilled(WithBgSync.OfflineResponse()), Some(AbortHandle(0)))
  {
    OptimisticSyncedSetup(optimistic, answers);
    OptimisticSyncedOver(TestAbortable, Url, Passed(PostOptions(optimistic)), OfflineWorld("bgSynced", answers),
                         Observation([FirstSent()], [], [], []), Some(AbortHandle(0)),
                         Observation([RetrySent()], [], [], []), Some(AbortHandle(2)), World([], answers, [], Missing, true, 4));
    PostCallback(optimistic);
  }

  /**
   * "should bgSync a request" (optimistic, the retry answers "bgSynced",
   * the callback rejects): the sentinel, two fetches of which only the
   * second carries `bgSync: "1"`, the callback once, no message.
   */
  lemma OptimisticSynced()
    ensures var r := Run(TestRequest, Url, Passed(PostOptions(Some(true))), OfflineWorld("bgSynced", [Rejects(Undefined)]));
      && r.call == Returned(Pending(Fulfilled(WithBgSync.OfflineResponse()), Some(AbortHandle(0))))
      && Observed(r.effects) == Observation([FirstSent(), RetrySent()], [Callback], [], [])
      && !MarkedRetry(FirstSent()) && MarkedRetry(RetrySent())
  {
    OptimisticSyncedAtBgSync(Some(true), [Rejects(Undefined)]);
    MergeFetches(FirstSent(), RetrySent(), [Callback], []);
    AtRequest(Some(true), OfflineWorld("bgSynced", [Rejects(Undefined)]),
              Merge(Merge(Observation([FirstSent()], [], [], []), Observation([RetrySent()], [], [], [])), Observation([], [Callback], [], [])),
              Observation([FirstSent(), RetrySent()], [Callback], [], []),
              Fulfilled(WithBgSync.OfflineResponse()), Some(AbortHandle(0)));
    RetryMarked();
  }

  /**
   * "should prevent the bgSync a request" (optimistic by default, the
   * retry answers "bgSynced", the callback resolves): the sentinel, two
   * fetches, the callback once, and `{type: "removeBgSynced", url:
   * "mockUrl", method: "POST"}` posted to the service worker.
   */
  lemma OptimisticSyncedRemoved()
    ensures var r := Run(TestRequest, Url, Passed(PostOptions(None)), OfflineWorld("bgSynced", [Resolves(Undefined)]));
      && r.call == Returned(Pending(Fulfilled(WithBgSync.OfflineResponse()), Some(AbortHandle(0))))
      && Observed(r.effects) == Observation([FirstSent(), RetrySent()], [Callback], [WithBgSync.RemoveMessage(Url, Str("POST"))], [])
      && MarkedRetry(RetrySent())
      && WithBgSync.RemoveMessage(Url, Str("POST")) == Obj(map["type" := Str("removeBgSynced"), "url" := Str("mockUrl"), "method" := Str("POST")])
  {
    OptimisticSyncedAtBgSync(None, [Resolves(Undefined)]);
    MergeFetches(FirstSent(), RetrySent(), [Callback], [WithBgSync.RemoveMessage(Url, Str("POST"))]);
    AtRequest(None, OfflineWorld("bgSynced", [Resolves(Undefined)]),
              Merge(Merge(Observation([FirstSent()], [], [], []), Observation([RetrySent()], [], [], [])),
                    Observation([], [Callback], [WithBgSync.RemoveMessage(Url, Str("POST"))], [])),
              Observation([FirstSent(), RetrySent()], [Callback], [WithBgSync.RemoveMessage(Url, Str("POST"))], []),
              Fulfilled(WithBgSync.OfflineResponse()), Some(AbortHandle(0)));
    RetryMarked();
    RemoveMessageShape();
  }

  /** The request under test, pessimistic, offline, and a callback that rejects. */
  lemma PessimisticRejectedSetup(second: string, answers: seq<Answer>)
    requires |answers| > 0 && answers[0].Rejects?
    ensures PessimisticRejectedCase(TestAbortable, Url, Passed(PostOptions(Some(false))), OfflineWorld(second, answers),
                                    Observation([FirstSent()], [], [], []), Some(AbortHandle(0)),
                                    World([ReplyStatus(second)], answers, [], Missing, true, 2))
  {
    FirstOffline(Some(false), second, answers);
    PostOptimism(Some(false));
    PostCallback(Some(false));
  }

  /** Pessimistic, offline, and a callback that rejects, at withBgSync: one fetch, the callback, the sentinel. */
  lemma PessimisticDeclinedAtBgSync(second: string, answers: seq<Answer>)
    requires |answers| > 0 && answers[0].Rejects?
    ensures Answered(Run(TestSynced, Url, Passed(PostOptions(Some(false))), OfflineWorld(second, answers)),
                     Merge(Observation([FirstSent()], [], [], []), Observe(Called(Callback))),
                     Fulfilled(WithBgSync.OfflineResponse()), Some(AbortHandle(0)))
  {
    PessimisticRejectedSetup(second, answers);
    PessimisticRejectedOver(TestAbortable, Url, Passed(PostOptions(Some(false))), OfflineWorld(second, answers),
                            Observation([FirstSent()], [], [], []), Some(AbortHandle(0)),
                            World([ReplyStatus(second)], answers, [], Missing, true, 2));
    PostCallback(Some(false));
  }

  /**
   * "should prevent the bgSync when user does not confirm" (pessimistic,
   * the callback rejects): the sentinel, the callback once, and a single
   * fetch: the retry is never sent.
   */
  lemma PessimisticDeclined()
    ensures var r := Run(TestRequest, Url, Passed(PostOptions(Some(false))), OfflineWorld("bgSynced", [Rejects(Undefined)]));
      && r.call == Returned(Pending(Fulfilled(WithBgSync.OfflineResponse()), Some(AbortHandle(0))))
      && Observed(r.effects) == Observation([FirstSent()], [Callback], [], [])
  {
    PessimisticDeclinedAtBgSync("bgSynced", [Rejects(Undefined)]);
    MergeCallbackAfter(FirstSent(), Callback);
    AtRequest(Some(false), OfflineWorld("bgSynced", [Rejects(Undefined)]),
              Merge(Observation([FirstSent()], [], [], []), Observe(Called(Callback))), Observation([FirstSent()], [Callback], [], []),
              Fulfilled(WithBgSync.OfflineResponse()), Some(AbortHandle(0)));
  }

  /** The marked retry of the pessimistic scenario, sent after the callback has answered. */
  lemma PessimisticRetry(second: string, answers: seq<Answer>)
    requires |answers| > 0
    ensures var later := World([ReplyStatus(second)], answers, [], Missing, true, 2);
      Answered(Run(TestAbortable, Url, Passed(WithBgSync.RetryOptions(WithBgSync.Params(OptionsOf(Passed(PostOptions(Some(false))))))),
                   later.(answers := later.answers[1..])),
               Observation([RetrySent()], [], [], []), Fulfilled(Obj(map["statusText" := Str(second)])), Some(AbortHandle(2)))
  {
    var later := World([ReplyStatus(second)], answers, [], Missing, true, 2);
    LaterAnswers([ReplyStatus(second)], answers, 2);
    PessimisticRetryOptions();
    SameRun(TestAbortable, WithBgSync.RetryOptions(WithBgSync.Params(OptionsOf(Passed(PostOptions(Some(false)))))), WithBgSync.RetryOptions(PostBody),
            later.(answers := later.answers[1..]), World([ReplyStatus(second)], answers[1..], [], Missing, true, 2));
    RetryFetch(second, answers[1..]);
  }

  /** Equal options and worlds give equal runs. */
  lemma SameRun(s: Stack, x: Options, y: Options, v: World, u: World)
    requires x == y && v == u
    ensures Run(s, Url, Passed(x), v) == Run(s, Url, Passed(y), u)
  {
  }

  /** Consuming the callback's answer in a test world. */
  lemma LaterAnswers(fetches: seq<FetchReply>, answers: seq<Answer>, id: nat)
    requires |answers| > 0
    ensures World(fetches, answers, [], Missing, true, id).(answers := World(fetches, answers, [], Missing, true, id).answers[1..])
         == World(fetches, answers[1..], [], Missing, true, id)
  {
  }

  /** The pessimistic retry's options are the marked POST body. */
  lemma PessimisticRetryOptions()
    ensures WithBgSync.RetryOptions(WithBgSync.Params(OptionsOf(Passed(PostOptions(Some(false)))))) == WithBgSync.RetryOptions(PostBody)
  {
    PostParams(Some(false));
  }

  /** The request under test, pessimistic, offline, and a callback that resolves. */
  lemma PessimisticResolvedSetup(second: string, answers: seq<Answer>)
    requires |answers| > 0 && answers[0].Resolves?
    ensures PessimisticResolvedCase(TestAbortable, Url, Passed(PostOptions(Some(false))), OfflineWorld(second, answers),
                                    Observation([FirstSent()], [], [], []), Some(AbortHandle(0)),
                                    World([ReplyStatus(second)], answers, [], Missing, true, 2),
                                    Observation([RetrySent()], [], [], []), Fulfilled(Obj(map["statusText" := Str(second)])), Some(AbortHandle(2)))
  {
    FirstOffline(Some(false), second, answers);
    PostOptimism(Some(false));
    PostCallback(Some(false));
    PessimisticRetry(second, answers);
  }

  /** Pessimistic, offline, and a callback that resolves, at withBgSync: the fetch, the callback, the marked retry, the sentinel. */
  lemma PessimisticConfirmedAtBgSync(second: string, answers: seq<Answer>)
    requires |answers| > 0 && answers[0].Resolves?
    ensures Answered(Run(TestSynced, Url, Passed(PostOptions(Some(false))), OfflineWorld(second, answers)),
                     Merge(Merge(Observation([FirstSent()], [], [], []), Observe(Called(Callback))), Observation([RetrySent()], [], [], [])),
                     Fulfilled(WithBgSync.OfflineResponse()), Some(AbortHandle(0)))
  {
    PessimisticResolvedSetup(second, answers);
    PessimisticResolvedOver(TestAbortable, Url, Passed(PostOptions(Some(false))), OfflineWorld(second, answers),
                            Observation([FirstSent()], [], [], []), Some(AbortHandle(0)),
                            World([ReplyStatus(second)], answers, [], Missing, true, 2),
                            Observation([RetrySent()], [], [], []), Fulfilled(Obj(map["statusText" := Str(second)])), Some(AbortHandle(2)));
    PostCallback(Some(false));
  }

  /**
   * "should bgSync a request when user confirm" (pessimistic, the
   * callback resolves): the sentinel, the callback once, then the marked
   * retry: two fetches, the second with `bgSync: "1"`.
   */
  lemma PessimisticConfirmed()
    ensures var r := Run(TestRequest, Url, Passed(PostOptions(Some(false))), OfflineWorld("bgSynced", [Resolves(Undefined)]));
      && r.call == Returned(Pending(Fulfilled(WithBgSync.OfflineResponse()), Some(AbortHandle(0))))
      && Observed(r.effects) == Observation([FirstSent(), RetrySent()], [Callback], [], [])
      && MarkedRetry(RetrySent())
  {
    PessimisticConfirmedAtBgSync("bgSynced", [Resolves(Undefined)]);
    MergeCallbackBetween(FirstSent(), Callback, RetrySent());
    AtRequest(Some(false), OfflineWorld("bgSynced", [Resolves(Undefined)]),
              Merge(Merge(Observation([FirstSent()], [], [], []), Observe(Called(Callback))), Observation([RetrySent()], [], [], [])),
              Observation([FirstSent(), RetrySent()], [Callback], [], []),
              Fulfilled(WithBgSync.OfflineResponse()), Some(AbortHandle(0)));
    RetryMarked();
  }
}
