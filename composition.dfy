/**
 * The default export: `withAuthClient(withCache(withBgSync(withAbort(request))))`,
 * with no generic cache store. The wrapping order decides which calls get
 * a controller and timer of their own, which results keep `.abort`, and
 * whether an unsupported bgSync method is thrown or becomes a rejection.
 */
module Composition {
  import opened Values
  import opened Traces
  import opened BaseRequest
  import WithAbort
  import WithBgSync
  import WithCache
  import WithAuthClient

  /**
   * A request function described by how it was built: the base request,
   * or one middleware wrapped around another description. The default
   * export and the stacks the tests build are such chains.
   */
  datatype Stack = Fetcher | AbortOver(inner: Stack) | BgSyncOver(inner: Stack) | CacheOver(inner: Stack, generic: Value) | AuthOver(inner: Stack)

  /** One call of the request function the stack describes: its outermost middleware, around the rest. */
  function Run(s: Stack, url: string, args: Args, w: World): Step
    decreases s, 0
  {
    match s
    case Fetcher => BaseCall(url, args, w)
    case AbortOver(inner) => WithAbort.AbortCall(Build(inner), url, args, w)
    case BgSyncOver(inner) => WithBgSync.BgSyncCall(Build(inner), url, args, w)
    case CacheOver(inner, generic) => WithCache.CacheCall(Build(inner), generic, url, args, w)
    case AuthOver(inner) => WithAuthClient.AuthCall(Build(inner), url, args, w)
  }

  /** The request function a stack describes. */
  function Build(s: Stack): Request
    decreases s, 1
  {
    (url: string, args: Args, w: World) => Run(s, url, args, w)
  }

  /** Each description behaves as the middleware's own wrapper applied to the request the rest describes. */
  lemma BuildIsWrapping(s: Stack, url: string, args: Args, w: World)
    ensures s.Fetcher? ==> Build(s)(url, args, w) == Base(url, args, w)
    ensures s.AbortOver? ==> Build(s)(url, args, w) == WithAbort.WithAbort(Build(s.inner))(url, args, w)
    ensures s.BgSyncOver? ==> Build(s)(url, args, w) == WithBgSync.WithBgSync(Build(s.inner))(url, args, w)
    ensures s.CacheOver? ==> Build(s)(url, args, w) == WithCache.WithCache(Build(s.inner), s.generic)(url, args, w)
    ensures s.AuthOver? ==> Build(s)(url, args, w) == WithAuthClient.WithAuthClient(Build(s.inner))(url, args, w)
  {
  }

  /** withAbort(request). */
  const Abortable: Request := Build(AbortOver(Fetcher))

  /** withBgSync(withAbort(request)). */
  const Synced: Request := Build(BgSyncOver(AbortOver(Fetcher)))

  /** withCache(withBgSync(withAbort(request))), with no generic store. */
  const CachedSynced: Request := Build(CacheOver(BgSyncOver(AbortOver(Fetcher)), Undefined))

  /** The default export: `withAuthClient(withCache(withBgSync(withAbort(request))))`. */
  const DefaultStack: Stack := AuthOver(CacheOver(BgSyncOver(AbortOver(Fetcher)), Undefined))

  const DefaultRequest: Request := Build(DefaultStack)

  /**
   * withAbort(request) on an options object: one controller and one timer
   * with the next id, one fetch, the fetch outcome unchanged, the result's
   * `.abort` this call's, and the timer left pending exactly when the fetch
   * did not succeed.
   */
  lemma AbortableBase(url: string, opts: Options, w: World)
    ensures var s := Abortable(url, Passed(opts), w);
      && ControllerIds(s.effects) == [w.nextId]
      && TimerIds(s.effects) == [w.nextId]
      && IssuedBy(s.effects, BgSyncLayer) == 0
      && FetchCount(s.effects) == 1
      && s.world.nextId == w.nextId + 1
      && s.call == Returned(Pending(Outcome(TakeFetch(w).0), Some(AbortHandle(w.nextId))))
      && PendingTimers({}, s.effects) == (if s.call.pending.outcome.Fulfilled? then {} else {w.nextId})
  {
    var id := w.nextId;
    var m := WithAbort.AbortOptions(opts, AbortControllers.SignalValue(w.platform, id));
    var o := Outcome(TakeFetch(w).0);
    var tail := if o.Fulfilled? then [ClearTimer(id)] else [];
    AbortableTrace(url, opts, w);
    AbortTraceCounts(id, WithAbort.TimeoutOf(opts), url, m, tail);
  }

  /** The trace and result of withAbort(request) on an options object. */
  lemma AbortableTrace(url: string, opts: Options, w: World)
    ensures var id := w.nextId;
      var m := WithAbort.AbortOptions(opts, AbortControllers.SignalValue(w.platform, id));
      var o := Outcome(TakeFetch(w).0);
      var s := Abortable(url, Passed(opts), w);
      && s.effects == [NewController(id), StartTimer(id, WithAbort.TimeoutOf(opts)), Invoke(AbortLayer, url, Passed(m)),
                       Fetch(url, FetchOptions(m))] + (if o.Fulfilled? then [ClearTimer(id)] else [])
      && s.world.nextId == id + 1
      && s.call == Returned(Pending(o, Some(AbortHandle(id))))
  {
    AbortableIsAbortCall(url, Passed(opts), w);
    AbortOverFetcher(url, opts, w);
  }

  /** withAbort's call around the base request. */
  lemma AbortOverFetcher(url: string, opts: Options, w: World)
    ensures var id := w.nextId;
      var m := WithAbort.AbortOptions(opts, AbortControllers.SignalValue(w.platform, id));
      var o := Outcome(TakeFetch(w).0);
      WithAbort.AbortCall(Build(Fetcher), url, Passed(opts), w) ==
        Step([NewController(id), StartTimer(id, WithAbort.TimeoutOf(opts)), Invoke(AbortLayer, url, Passed(m)), Fetch(url, FetchOptions(m))]
             + (if o.Fulfilled? then [ClearTimer(id)] else []),
             Returned(Pending(o, Some(AbortHandle(id)))), TakeFetch(w).1.(nextId := id + 1))
  {
    var id := w.nextId;
    var m := WithAbort.AbortOptions(opts, AbortControllers.SignalValue(w.platform, id));
    var w1 := w.(nextId := id + 1);
    assert TakeFetch(w1) == (TakeFetch(w).0, TakeFetch(w).1.(nextId := id + 1));
    FetcherStep(url, Passed(m), w1);
    WithAbort.AbortCallOneEffect(Build(Fetcher), url, opts, w, Fetch(url, FetchOptions(m)), Outcome(TakeFetch(w).0), TakeFetch(w1).1);
  }

  /** withAbort(request) is withAbort's call around the base request. */
  lemma AbortableIsAbortCall(url: string, args: Args, w: World)
    ensures Abortable(url, args, w) == WithAbort.AbortCall(Build(Fetcher), url, args, w)
  {
  }

  /** The base request as a stack: one fetch. */
  lemma FetcherStep(url: string, args: Args, w: World)
    ensures Build(Fetcher)(url, args, w) ==
      Step([Fetch(url, FetchOptions(OptionsOf(args)))], Returned(Pending(Outcome(TakeFetch(w).0), None)), TakeFetch(w).1)
  {
  }

  /** withAbort(request) consumes one fetch reply and one controller id, and nothing else of the world. */
  lemma AbortableWorld(url: string, opts: Options, w: World)
    ensures Abortable(url, Passed(opts), w).world == TakeFetch(w).1.(nextId := w.nextId + 1)
  {
  }

  /** The counts of the trace withAbort(request) leaves. */
  lemma AbortTraceCounts(id: nat, delay: Value, url: string, m: Options, tail: seq<Effect>)
    requires tail == [] || tail == [ClearTimer(id)]
    ensures var fx := [NewController(id), StartTimer(id, delay), Invoke(AbortLayer, url, Passed(m)), Fetch(url, FetchOptions(m))] + tail;
      && ControllerIds(fx) == [id]
      && TimerIds(fx) == [id]
      && IssuedBy(fx, BgSyncLayer) == 0
      && FetchCount(fx) == 1
      && PendingTimers({}, fx) == (if tail == [] then {id} else {})
  {
    AbortTraceIds(id, delay, url, m, tail);
    AbortTraceCalls(id, delay, url, m, tail);
    AbortTraceTimers(id, delay, url, m, tail);
  }

  /** Taking a four-effect trace with a tail apart, one effect at a time. */
  lemma FourSteps(e0: Effect, e1: Effect, e2: Effect, e3: Effect, tail: seq<Effect>)
    ensures ([e0, e1, e2, e3] + tail)[0] == e0 && ([e0, e1, e2, e3] + tail)[1..] == [e1, e2, e3] + tail
    ensures ([e1, e2, e3] + tail)[0] == e1 && ([e1, e2, e3] + tail)[1..] == [e2, e3] + tail
    ensures ([e2, e3] + tail)[0] == e2 && ([e2, e3] + tail)[1..] == [e3] + tail
    ensures ([e3] + tail)[0] == e3 && ([e3] + tail)[1..] == tail
  {
  }

  /** What the possible tails of withAbort's trace contribute. */
  lemma TailCounts(id: nat, tail: seq<Effect>)
    requires tail == [] || tail == [ClearTimer(id)]
    ensures ControllerIds(tail) == [] && TimerIds(tail) == [] && IssuedBy(tail, BgSyncLayer) == 0 && FetchCount(tail) == 0
    ensures PendingTimers({id}, tail) == (if tail == [] then {id} else {})
  {
    if tail != [] {
      assert tail[1..] == [];
    }
  }

  lemma AbortTraceIds(id: nat, delay: Value, url: string, m: Options, tail: seq<Effect>)
    requires tail == [] || tail == [ClearTimer(id)]
    ensures var fx := [NewController(id), StartTimer(id, delay), Invoke(AbortLayer, url, Passed(m)), Fetch(url, FetchOptions(m))] + tail;
      ControllerIds(fx) == [id] && TimerIds(fx) == [id]
  {
    var e0, e1, e2, e3 := NewController(id), StartTimer(id, delay), Invoke(AbortLayer, url, Passed(m)), Fetch(url, FetchOptions(m));
    FourSteps(e0, e1, e2, e3, tail);
    TailCounts(id, tail);
    assert ControllerIds([e3] + tail) == [] && TimerIds([e3] + tail) == [];
    assert ControllerIds([e2, e3] + tail) == [] && TimerIds([e2, e3] + tail) == [];
    assert ControllerIds([e1, e2, e3] + tail) == [] && TimerIds([e1, e2, e3] + tail) == [id];
  }

  lemma AbortTraceCalls(id: nat, delay: Value, url: string, m: Options, tail: seq<Effect>)
    requires tail == [] || tail == [ClearTimer(id)]
    ensures var fx := [NewController(id), StartTimer(id, delay), Invoke(AbortLayer, url, Passed(m)), Fetch(url, FetchOptions(m))] + tail;
      IssuedBy(fx, BgSyncLayer) == 0 && FetchCount(fx) == 1
  {
    var e0, e1, e2, e3 := NewController(id), StartTimer(id, delay), Invoke(AbortLayer, url, Passed(m)), Fetch(url, FetchOptions(m));
    FourSteps(e0, e1, e2, e3, tail);
    TailCounts(id, tail);
    assert IssuedBy([e3] + tail, BgSyncLayer) == 0 && FetchCount([e3] + tail) == 1;
    assert IssuedBy([e2, e3] + tail, BgSyncLayer) == 0 && FetchCount([e2, e3] + tail) == 1;
    assert IssuedBy([e1, e2, e3] + tail, BgSyncLayer) == 0 && FetchCount([e1, e2, e3] + tail) == 1;
  }

  lemma AbortTraceTimers(id: nat, delay: Value, url: string, m: Options, tail: seq<Effect>)
    requires tail == [] || tail == [ClearTimer(id)]
    ensures var fx := [NewController(id), StartTimer(id, delay), Invoke(AbortLayer, url, Passed(m)), Fetch(url, FetchOptions(m))] + tail;
      PendingTimers({}, fx) == (if tail == [] then {id} else {})
  {
    var e0, e1, e2, e3 := NewController(id), StartTimer(id, delay), Invoke(AbortLayer, url, Passed(m)), Fetch(url, FetchOptions(m));
    FourSteps(e0, e1, e2, e3, tail);
    TailCounts(id, tail);
    assert PendingTimers({id}, [e3] + tail) == PendingTimers({id}, tail);
    assert PendingTimers({id}, [e2, e3] + tail) == PendingTimers({id}, [e3] + tail);
    assert {} + {id} == {id};
    assert PendingTimers({}, [e1, e2, e3] + tail) == PendingTimers({id}, [e2, e3] + tail);
  }

  /** The controllers and timers of a trace are numbered consecutively from the world's next id, one per call of withAbort. */
  predicate Numbered(fx: seq<Effect>, before: World, after: World) {
    var n := IssuedBy(fx, BgSyncLayer);
    ControllerIds(fx) == Ids(before.nextId, n) && TimerIds(fx) == Ids(before.nextId, n) && after.nextId == before.nextId + n
  }

  lemma NumberedAppend(a: seq<Effect>, b: seq<Effect>, w0: World, w1: World, w2: World)
    requires Numbered(a, w0, w1) && Numbered(b, w1, w2)
    ensures Numbered(a + b, w0, w2)
  {
    ControllerIdsAppend(a, b);
    TimerIdsAppend(a, b);
    IssuedByAppend(a, b, BgSyncLayer);
    IdsAppend(w0.nextId, IssuedBy(a, BgSyncLayer), IssuedBy(b, BgSyncLayer));
  }

  /** A trace with no layer call and no controller (a callback call, a posted message) leaves the numbering alone. */
  lemma NumberedQuiet(fx: seq<Effect>, before: World, after: World)
    requires |fx| <= 1 && (fx == [] || fx[0].Called? || fx[0].Posted?)
    requires after.nextId == before.nextId
    ensures Numbered(fx, before, after)
  {
    if fx != [] {
      assert fx[1..] == [];
    }
  }

  /** One call issued by withBgSync: one new controller and timer. */
  lemma ForwardNumbered(url: string, opts: Options, w: World)
    ensures var f := Forward(Abortable, BgSyncLayer, url, opts, w);
      Numbered(f.effects, w, f.world) && IssuedBy(f.effects, BgSyncLayer) == 1
  {
    var s := Abortable(url, Passed(opts), w);
    AbortableBase(url, opts, w);
    var head := [Invoke(BgSyncLayer, url, Passed(opts))];
    assert head[1..] == [];
    ControllerIdsAppend(head, s.effects);
    TimerIdsAppend(head, s.effects);
    IssuedByAppend(head, s.effects, BgSyncLayer);
  }

  lemma AfterRetryNumbered(url: string, params: Options, bgSync: Value, o: Settled, w: World)
    ensures var t := WithBgSync.AfterRetry(url, params, bgSync, o, w); Numbered(t.effects, w, t.world)
  {
    var t := WithBgSync.AfterRetry(url, params, bgSync, o, w);
    if o.Fulfilled? && Prop(o.value, "statusText") == Some(Str("bgSynced")) {
      var c := CallFn(bgSync, w);
      NumberedQuiet(c.effects, w, c.world);
      if c.answer.Resolves? {
        var n := WithBgSync.RemoveBgSynced(url, Get(params, "method"), c.world);
        NumberedQuiet(n.effects, c.world, n.world);
        NumberedAppend(c.effects, n.effects, w, c.world, n.world);
      }
    } else {
      NumberedQuiet(t.effects, w, t.world);
    }
  }

  lemma OptimisticNumbered(url: string, params: Options, bgSync: Value, w: World)
    ensures var a := WithBgSync.Optimistic(Abortable, url, params, bgSync, w); Numbered(a.effects, w, a.world)
  {
    var retry := Forward(Abortable, BgSyncLayer, url, WithBgSync.RetryOptions(params), w);
    ForwardNumbered(url, WithBgSync.RetryOptions(params), w);
    if retry.call.Returned? {
      var t := WithBgSync.AfterRetry(url, params, bgSync, retry.call.pending.outcome, retry.world);
      AfterRetryNumbered(url, params, bgSync, retry.call.pending.outcome, retry.world);
      NumberedAppend(retry.effects, t.effects, w, retry.world, t.world);
    }
  }

  lemma PessimisticNumbered(url: string, params: Options, bgSync: Value, w: World)
    ensures var a := WithBgSync.Pessimistic(Abortable, url, params, bgSync, w); Numbered(a.effects, w, a.world)
  {
    var c := CallFn(bgSync, w);
    NumberedQuiet(c.effects, w, c.world);
    if c.answer.Resolves? {
      var retry := Forward(Abortable, BgSyncLayer, url, WithBgSync.RetryOptions(params), c.world);
      ForwardNumbered(url, WithBgSync.RetryOptions(params), c.world);
      NumberedAppend(c.effects, retry.effects, w, c.world, retry.world);
    }
  }

  lemma OnResponseNumbered(url: string, params: Options, bgSync: Value, optimistic: bool, o: Settled, w: World)
    ensures var t := WithBgSync.OnResponse(Abortable, url, params, bgSync, optimistic, o, w); Numbered(t.effects, w, t.world)
  {
    var t := WithBgSync.OnResponse(Abortable, url, params, bgSync, optimistic, o, w);
    if o.Fulfilled? && Prop(o.value, "statusText") == Some(Str("offline")) {
      if optimistic {
        OptimisticNumbered(url, params, bgSync, w);
      } else {
        PessimisticNumbered(url, params, bgSync, w);
      }
    } else {
      NumberedQuiet(t.effects, w, t.world);
    }
  }

  /**
   * In withBgSync(withAbort(request)) every call withBgSync issues, the
   * first one and each retry, gets a controller and a timer of its own,
   * numbered in call order, and no other controller is made.
   */
  lemma EveryCallGetsItsOwnController(url: string, args: Args, w: World)
    ensures var s := Synced(url, args, w);
      && ControllerIds(s.effects) == Ids(w.nextId, IssuedBy(s.effects, BgSyncLayer))
      && TimerIds(s.effects) == Ids(w.nextId, IssuedBy(s.effects, BgSyncLayer))
      && s.world.nextId == w.nextId + IssuedBy(s.effects, BgSyncLayer)
  {
    var m := OptionsOf(args);
    var bgSync := Get(m, "bgSync");
    var params := WithBgSync.Params(m);
    var s := Synced(url, args, w);
    if !Truthy(bgSync) {
      ForwardNumbered(url, params, w);
    } else if WithBgSync.MethodCheck(Get(params, "method")).Some? {
      NumberedQuiet([], w, w);
    } else {
      var first := Forward(Abortable, BgSyncLayer, url, params, w);
      ForwardNumbered(url, params, w);
      AbortableBase(url, params, w);
      var p := first.call.pending;
      var t := WithBgSync.OnResponse(Abortable, url, params, bgSync, WithBgSync.IsOptimistic(m), p.outcome, first.world);
      OnResponseNumbered(url, params, bgSync, WithBgSync.IsOptimistic(m), p.outcome, first.world);
      NumberedAppend(first.effects, t.effects, w, first.world, t.world);
    }
  }

  /**
   * The wrapping order: a call with no options passes auth, cache, bgSync
   * and abort in that order, each handing `{}` (abort adds the signal)
   * inwards, and ends in one fetch with the defaulted options.
   */
  lemma LayerOrder(url: string, w: World)
    ensures var id := w.nextId;
      var inner := WithAbort.AbortOptions(map[], AbortControllers.SignalValue(w.platform, id));
      var r := DefaultRequest(url, Omitted, w);
      |r.effects| >= 7 && r.effects[..7] == [Invoke(AuthLayer, url, Passed(map[])), Invoke(CacheLayer, url, Passed(map[])),
                         Invoke(BgSyncLayer, url, Passed(map[])), NewController(id), StartTimer(id, Num(5000)),
                         Invoke(AbortLayer, url, Passed(inner)), Fetch(url, FetchOptions(inner))]
  {
    var id := w.nextId;
    var inner := WithAbort.AbortOptions(map[], AbortControllers.SignalValue(w.platform, id));
    var tail := if Outcome(TakeFetch(w).0).Fulfilled? then [ClearTimer(id)] else [];
    DefaultOmitted(url, w);
    AbortableTrace(url, map[], w);
    assert WithAbort.TimeoutOf(map[]) == Num(5000);
    PrefixSeven(DefaultRequest(url, Omitted, w).effects,
                Invoke(AuthLayer, url, Passed(map[])), Invoke(CacheLayer, url, Passed(map[])), Invoke(BgSyncLayer, url, Passed(map[])),
                NewController(id), StartTimer(id, Num(5000)), Invoke(AbortLayer, url, Passed(inner)), Fetch(url, FetchOptions(inner)), tail);
  }

  lemma PrefixSeven(r: seq<Effect>, a: Effect, b: Effect, c: Effect, d: Effect, e: Effect, f: Effect, g: Effect, tail: seq<Effect>)
    requires r == [a, b, c] + ([d, e, f, g] + tail)
    ensures |r| >= 7 && r[..7] == [a, b, c, d, e, f, g]
  {
    assert r == [a, b, c, d, e, f, g] + tail;
  }

  /** Without options the default export hands `{}` to every layer. */
  lemma DefaultOmitted(url: string, w: World)
    ensures DefaultRequest(url, Omitted, w).effects ==
      [Invoke(AuthLayer, url, Passed(map[])), Invoke(CacheLayer, url, Passed(map[])), Invoke(BgSyncLayer, url, Passed(map[]))]
      + Abortable(url, Passed(map[]), w).effects
  {
    AuthOmitted(url, w);
    CacheEmpty(url, w);
    SyncedEmpty(url, w);
    ThreeCalls(Invoke(AuthLayer, url, Passed(map[])), Invoke(CacheLayer, url, Passed(map[])), Invoke(BgSyncLayer, url, Passed(map[])),
               Abortable(url, Passed(map[]), w).effects);
  }

  lemma AuthOmitted(url: string, w: World)
    ensures var c := CachedSynced(url, Passed(map[]), w);
      DefaultRequest(url, Omitted, w) == Step([Invoke(AuthLayer, url, Passed(map[]))] + c.effects, c.call, c.world)
  {
    assert WithAuthClient.AuthParams(map[]) == map[];
    AuthOverForwards(CacheOver(BgSyncOver(AbortOver(Fetcher)), Undefined), url, Omitted, w);
  }

  lemma CacheEmpty(url: string, w: World)
    ensures var b := Synced(url, Passed(map[]), w);
      CachedSynced(url, Passed(map[]), w) == Step([Invoke(CacheLayer, url, Passed(map[]))] + b.effects, b.call, b.world)
  {
    assert WithCache.Stripped(map[]) == map[];
    CachePasses(url, map[], w);
  }

  lemma SyncedEmpty(url: string, w: World)
    ensures var a := Abortable(url, Passed(map[]), w);
      Synced(url, Passed(map[]), w) == Step([Invoke(BgSyncLayer, url, Passed(map[]))] + a.effects, a.call, a.world)
  {
    assert WithBgSync.Params(map[]) == map[];
    SyncedPasses(url, map[], w);
  }

  lemma ThreeCalls(x: Effect, y: Effect, z: Effect, fx: seq<Effect>)
    ensures [x] + ([y] + ([z] + fx)) == [x, y, z] + fx
  {
  }

  /** Options that ask for none of auth, caching and background sync. */
  predicate Plain(m: Options) {
    !Truthy(Get(m, "authClient")) && !Truthy(Get(m, "bgSync")) && !WithCache.Engaged(m, Undefined)
  }

  /** What the default stack hands to withAbort for plain options. */
  function PlainParams(m: Options): (p: Options)
    ensures p.Keys == m.Keys - {"authClient", "withAuthClientError", "bgSync", "bgSyncOptimistic"} - WithCache.CacheKeys
    ensures forall k :: k in p ==> p[k] == m[k]
  {
    WithBgSync.Params(WithCache.Stripped(WithAuthClient.AuthParams(m)))
  }

  /**
   * For plain options the default export is a pass-through to
   * withAbort(request): auth, cache and bgSync each issue one call and
   * return its result unchanged.
   */
  lemma PlainDefault(url: string, m: Options, w: World)
    requires Plain(m)
    ensures var p1 := WithAuthClient.AuthParams(m);
      var p2 := WithCache.Stripped(p1);
      var a := Abortable(url, Passed(PlainParams(m)), w);
      DefaultRequest(url, Passed(m), w) ==
        Step([Invoke(AuthLayer, url, Passed(p1)), Invoke(CacheLayer, url, Passed(p2)), Invoke(BgSyncLayer, url, Passed(PlainParams(m)))]
             + a.effects, a.call, a.world)
  {
    var p1 := WithAuthClient.AuthParams(m);
    var p2 := WithCache.Stripped(p1);
    AuthKeepsOptions(m, Undefined, "cache");
    AuthKeepsOptions(m, Undefined, "cacheStore");
    AuthKeepsOptions(m, Undefined, "bgSync");
    var a := Abortable(url, Passed(PlainParams(m)), w);
    var b := Synced(url, Passed(p2), w);
    SyncedPasses(url, p2, w);
    var c := CachedSynced(url, Passed(p1), w);
    CachePasses(url, p1, w);
    AuthPasses(url, m, w);
    assert [Invoke(AuthLayer, url, Passed(p1))] + ([Invoke(CacheLayer, url, Passed(p2))] + ([Invoke(BgSyncLayer, url, Passed(PlainParams(m)))] + a.effects))
        == [Invoke(AuthLayer, url, Passed(p1)), Invoke(CacheLayer, url, Passed(p2)), Invoke(BgSyncLayer, url, Passed(PlainParams(m)))] + a.effects;
  }

  lemma SyncedPasses(url: string, p2: Options, w: World)
    requires !Truthy(Get(p2, "bgSync"))
    ensures var a := Abortable(url, Passed(WithBgSync.Params(p2)), w);
      Synced(url, Passed(p2), w) == Step([Invoke(BgSyncLayer, url, Passed(WithBgSync.Params(p2)))] + a.effects, a.call, a.world)
  {
    BgSyncOverForwards(AbortOver(Fetcher), url, Passed(p2), w);
  }

  lemma CachePasses(url: string, p1: Options, w: World)
    requires !WithCache.Engaged(p1, Undefined)
    ensures var b := Synced(url, Passed(WithCache.Stripped(p1)), w);
      CachedSynced(url, Passed(p1), w) ==
        Step([Invoke(CacheLayer, url, Passed(WithCache.Stripped(p1)))] + b.effects, b.call, b.world)
  {
    CacheOverForwards(BgSyncOver(AbortOver(Fetcher)), Undefined, url, Passed(p1), w);
  }

  /** withBgSync without a callback, around any stack: one forwarding call. */
  lemma BgSyncOverForwards(s: Stack, url: string, args: Args, w: World)
    requires !Truthy(Get(OptionsOf(args), "bgSync"))
    ensures Run(BgSyncOver(s), url, args, w) == Forward(Build(s), BgSyncLayer, url, WithBgSync.Params(OptionsOf(args)), w)
  {
  }

  /** withBgSync with a callback and an unsupported method, around any stack: a throw, and nothing else happens. */
  lemma BgSyncOverThrows(s: Stack, url: string, args: Args, w: World)
    requires Truthy(Get(OptionsOf(args), "bgSync")) && WithBgSync.MethodCheck(Get(OptionsOf(args), "method")).Some?
    ensures Run(BgSyncOver(s), url, args, w) == Step([], Threw(WithBgSync.MethodCheck(Get(OptionsOf(args), "method")).value), w)
  {
    assert Get(WithBgSync.Params(OptionsOf(args)), "method") == Get(OptionsOf(args), "method");
  }

  /** withAuthClient without a client, around any stack: one forwarding call. */
  lemma AuthOverForwards(s: Stack, url: string, args: Args, w: World)
    requires !Truthy(Get(OptionsOf(args), "authClient"))
    ensures Run(AuthOver(s), url, args, w) == Forward(Build(s), AuthLayer, url, WithAuthClient.AuthParams(OptionsOf(args)), w)
  {
  }

  /** withCache, not engaged, around any stack: one forwarding call. */
  lemma CacheOverForwards(s: Stack, generic: Value, url: string, args: Args, w: World)
    requires !WithCache.Engaged(OptionsOf(args), generic)
    ensures Run(CacheOver(s, generic), url, args, w) == Forward(Build(s), CacheLayer, url, WithCache.Stripped(OptionsOf(args)), w)
  {
  }

  lemma AuthPasses(url: string, m: Options, w: World)
    requires !Truthy(Get(m, "authClient"))
    ensures var c := CachedSynced(url, Passed(WithAuthClient.AuthParams(m)), w);
      DefaultRequest(url, Passed(m), w) == Step([Invoke(AuthLayer, url, Passed(WithAuthClient.AuthParams(m)))] + c.effects, c.call, c.world)
  {
    AuthOverForwards(CacheOver(BgSyncOver(AbortOver(Fetcher)), Undefined), url, Passed(m), w);
  }

  /** The fields of the options that reach the cache and bgSync layers, given the caller's options. */
  lemma AuthKeepsOptions(m: Options, token: Value, k: string)
    requires k != "headers" && k != "authClient" && k != "withAuthClientError"
    ensures Get(WithAuthClient.AuthParams(m), k) == Get(m, k)
    ensures Get(WithAuthClient.AuthorisedOptions(WithAuthClient.AuthParams(m), token), k) == Get(m, k)
  {
  }

  /**
   * Without authClient and with caching off, the result (when there is
   * one) carries the `.abort` of the first controller the call made.
   */
  lemma AbortSurvivesPlainStack(url: string, args: Args, w: World)
    requires !Truthy(Get(OptionsOf(args), "authClient"))
    requires !WithCache.Engaged(OptionsOf(args), Undefined)
    ensures var r := DefaultRequest(url, args, w);
      r.call.Returned? ==> r.call.pending.abort == Some(AbortHandle(w.nextId))
  {
    var m := OptionsOf(args);
    var p2 := WithCache.Stripped(WithAuthClient.AuthParams(m));
    PlainStackReachesSynced(url, args, w);
    SyncedKeepsAbort(url, p2, w);
  }

  /** Without authClient and with caching off, auth and cache only pass the call on. */
  lemma PlainStackReachesSynced(url: string, args: Args, w: World)
    requires !Truthy(Get(OptionsOf(args), "authClient"))
    requires !WithCache.Engaged(OptionsOf(args), Undefined)
    ensures DefaultRequest(url, args, w).call ==
      Synced(url, Passed(WithCache.Stripped(WithAuthClient.AuthParams(OptionsOf(args)))), w).call
  {
    var m := OptionsOf(args);
    var p1 := WithAuthClient.AuthParams(m);
    AuthKeepsOptions(m, Undefined, "cache");
    AuthKeepsOptions(m, Undefined, "cacheStore");
    assert !WithCache.Engaged(p1, Undefined);
    var cs := CachedSynced;
    assert DefaultRequest(url, args, w).call == cs(url, Passed(p1), w).call;
    assert cs(url, Passed(p1), w).call == Synced(url, Passed(WithCache.Stripped(p1)), w).call;
  }

  /** withBgSync(withAbort(request)) returns the `.abort` of its first controller whenever it returns. */
  lemma SyncedKeepsAbort(url: string, opts: Options, w: World)
    ensures var r := Synced(url, Passed(opts), w);
      r.call.Returned? ==> r.call.pending.abort == Some(AbortHandle(w.nextId))
  {
    AbortableBase(url, WithBgSync.Params(opts), w);
    SyncedIsCall(url, Passed(opts), w);
    KeepsAbortOf(Abortable, url, opts, w, AbortHandle(w.nextId));
  }

  /** withBgSync(withAbort(request)) is withBgSync's call around withAbort(request). */
  lemma SyncedIsCall(url: string, args: Args, w: World)
    ensures Synced(url, args, w) == WithBgSync.BgSyncCall(Abortable, url, args, w)
  {
  }

  /** withBgSync keeps the `.abort` of the promise its first call returns. */
  lemma KeepsAbortOf(inner: Request, url: string, opts: Options, w: World, h: Handle)
    requires inner(url, Passed(WithBgSync.Params(opts)), w).call.Returned?
    requires inner(url, Passed(WithBgSync.Params(opts)), w).call.pending.abort == Some(h)
    ensures var r := WithBgSync.BgSyncCall(inner, url, Passed(opts), w);
      r.call.Returned? ==> r.call.pending.abort == Some(h)
  {
    if Truthy(Get(opts, "bgSync")) && WithBgSync.MethodCheck(Get(opts, "method")).None? {
      WithBgSync.FirstCallKeepsAbort(inner, url, Passed(opts), w);
    }
  }

  /** With an authClient or with caching engaged, the result never carries `.abort`. */
  lemma AbortLostBehindAuthOrCache(url: string, args: Args, w: World)
    requires Truthy(Get(OptionsOf(args), "authClient")) || WithCache.Engaged(OptionsOf(args), Undefined)
    ensures var r := DefaultRequest(url, args, w);
      r.call.Returned? ==> r.call.pending.abort.None?
  {
    var m := OptionsOf(args);
    if !Truthy(Get(m, "authClient")) {
      AuthKeepsOptions(m, Undefined, "cache");
      AuthKeepsOptions(m, Undefined, "cacheStore");
      assert WithCache.Engaged(WithAuthClient.AuthParams(m), Undefined);
    }
  }

  /** The options behind auth and cache have the caller's method and bgSync callback. */
  lemma SyncedSeesCallerOptions(m: Options, token: Value)
    ensures var p := WithCache.Stripped(WithAuthClient.AuthParams(m));
      Get(p, "method") == Get(m, "method") && Get(p, "bgSync") == Get(m, "bgSync")
    ensures var p := WithCache.Stripped(WithAuthClient.AuthorisedOptions(WithAuthClient.AuthParams(m), token));
      Get(p, "method") == Get(m, "method") && Get(p, "bgSync") == Get(m, "bgSync")
  {
    AuthKeepsOptions(m, token, "method");
    AuthKeepsOptions(m, token, "bgSync");
  }

  /** A bgSync request with an unsupported method, without authClient or caching: the composed call throws. */
  lemma MethodErrorThrownWithoutAuth(url: string, args: Args, w: World)
    requires var m := OptionsOf(args);
      !Truthy(Get(m, "authClient")) && !WithCache.Engaged(m, Undefined)
      && Truthy(Get(m, "bgSync")) && WithBgSync.MethodCheck(Get(m, "method")).Some?
    ensures DefaultRequest(url, args, w).call == Threw(WithBgSync.MethodCheck(Get(OptionsOf(args), "method")).value)
  {
    var m := OptionsOf(args);
    SyncedSeesCallerOptions(m, Undefined);
    AuthKeepsOptions(m, Undefined, "cache");
    AuthKeepsOptions(m, Undefined, "cacheStore");
    var p1 := WithAuthClient.AuthParams(m);
    AuthOverForwards(CacheOver(BgSyncOver(AbortOver(Fetcher)), Undefined), url, args, w);
    CacheOverForwards(BgSyncOver(AbortOver(Fetcher)), Undefined, url, Passed(p1), w);
    BgSyncOverThrows(AbortOver(Fetcher), url, Passed(WithCache.Stripped(p1)), w);
  }

  /**
   * The same request with an authClient whose token arrives: the error is
   * raised inside `.then`, so the composed call returns a promise that
   * rejects with it.
   */
  lemma MethodErrorRejectedWithAuth(url: string, args: Args, w: World)
    requires var m := OptionsOf(args);
      WithAuthClient.HasTokenMethod(Get(m, "authClient")) && Get(m, "withAuthClientError").Func?
      && !WithCache.Engaged(m, Undefined)
      && Truthy(Get(m, "bgSync")) && WithBgSync.MethodCheck(Get(m, "method")).Some?
    requires |w.answers| > 0 && w.answers[0].Resolves? && Prop(w.answers[0].value, "id_token").Some?
    ensures DefaultRequest(url, args, w).call ==
      Returned(Pending(Rejected(WithBgSync.MethodCheck(Get(OptionsOf(args), "method")).value), None))
  {
    var m := OptionsOf(args);
    var token := Prop(w.answers[0].value, "id_token").value;
    var p1 := WithAuthClient.AuthorisedOptions(WithAuthClient.AuthParams(m), token);
    SyncedSeesCallerOptions(m, token);
    AuthKeepsOptions(m, token, "cache");
    AuthKeepsOptions(m, token, "cacheStore");
    AuthKeepsOptions(m, token, "method");
    AuthKeepsOptions(m, token, "bgSync");
    CachedSyncedThrows(url, p1, w.(answers := w.answers[1..]));
    DefaultIsAuthCall(url, args, w);
    WithAuthClient.TokenAuthorisesCall(Build(CacheOver(BgSyncOver(AbortOver(Fetcher)), Undefined)), url, args, w);
  }

  /** The default export is withAuthClient's call around the cached stack. */
  lemma DefaultIsAuthCall(url: string, args: Args, w: World)
    ensures DefaultRequest(url, args, w) == WithAuthClient.AuthCall(Build(CacheOver(BgSyncOver(AbortOver(Fetcher)), Undefined)), url, args, w)
  {
  }

  /** withCache(withBgSync(withAbort(request))), not engaged, with a callback and an unsupported method: a throw. */
  lemma CachedSyncedThrows(url: string, p1: Options, w: World)
    requires !WithCache.Engaged(p1, Undefined)
    requires Truthy(Get(p1, "bgSync")) && WithBgSync.MethodCheck(Get(p1, "method")).Some?
    ensures Build(CacheOver(BgSyncOver(AbortOver(Fetcher)), Undefined))(url, Passed(p1), w).call ==
      Threw(WithBgSync.MethodCheck(Get(p1, "method")).value)
  {
    var p2 := WithCache.Stripped(p1);
    assert Get(p2, "bgSync") == Get(p1, "bgSync") && Get(p2, "method") == Get(p1, "method");
    CacheOverForwards(BgSyncOver(AbortOver(Fetcher)), Undefined, url, Passed(p1), w);
    BgSyncOverThrows(AbortOver(Fetcher), url, Passed(p2), w);
  }

  /**
   * withCache(withBgSync(withAbort(request))), engaged, with a callback and
   * an unsupported method: the store decides first. A store that answers
   * by itself hides the error altogether. A store that calls the thunk is
   * taken to do so inside its own promise chain (the modelled store
   * answer Compute), so the thunk's throw becomes a rejection; under that
   * assumption the call never throws.
   */
  lemma CachedSyncedEngaged(url: string, p1: Options, w: World)
    requires WithCache.Engaged(p1, Undefined)
    requires Truthy(Get(p1, "bgSync")) && WithBgSync.MethodCheck(Get(p1, "method")).Some?
    requires |w.store| > 0
    ensures w.store[0].Cached? ==> CachedSynced(url, Passed(p1), w).call == Returned(Pending(w.store[0].outcome, None))
    ensures w.store[0].Compute? ==>
      CachedSynced(url, Passed(p1), w).call == Returned(Pending(Rejected(WithBgSync.MethodCheck(Get(p1, "method")).value), None))
  {
    var below := Build(BgSyncOver(AbortOver(Fetcher)));
    if w.store[0].Cached? {
      WithCache.HitSkipsRequest(below, Undefined, url, Passed(p1), w);
    } else {
      var p2 := WithCache.Stripped(p1);
      assert Get(p2, "bgSync") == Get(p1, "bgSync") && Get(p2, "method") == Get(p1, "method");
      WithCache.MissRunsRequest(below, Undefined, url, Passed(p1), w);
      BgSyncOverThrows(AbortOver(Fetcher), url, Passed(p2), w.(store := w.store[1..]));
    }
  }

  /**
   * The default export without an authClient, with caching engaged, a
   * callback and an unsupported method: no synchronous throw. A store hit
   * fulfils as the store says; a store that runs the request rejects with
   * the method error.
   */
  lemma MethodErrorUnderCache(url: string, args: Args, w: World)
    requires var m := OptionsOf(args);
      !Truthy(Get(m, "authClient")) && WithCache.Engaged(m, Undefined)
      && Truthy(Get(m, "bgSync")) && WithBgSync.MethodCheck(Get(m, "method")).Some?
    requires |w.store| > 0
    ensures !DefaultRequest(url, args, w).call.Threw?
    ensures w.store[0].Cached? ==> DefaultRequest(url, args, w).call == Returned(Pending(w.store[0].outcome, None))
    ensures w.store[0].Compute? ==>
      DefaultRequest(url, args, w).call == Returned(Pending(Rejected(WithBgSync.MethodCheck(Get(OptionsOf(args), "method")).value), None))
  {
    var m := OptionsOf(args);
    AuthKeepsOptions(m, Undefined, "cache");
    AuthKeepsOptions(m, Undefined, "cacheStore");
    AuthKeepsOptions(m, Undefined, "method");
    AuthKeepsOptions(m, Undefined, "bgSync");
    AuthOverForwards(CacheOver(BgSyncOver(AbortOver(Fetcher)), Undefined), url, args, w);
    CachedSyncedEngaged(url, WithAuthClient.AuthParams(m), w);
  }
}
