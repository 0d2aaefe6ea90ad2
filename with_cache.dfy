/**
 * withCache(request, genericCacheStore): when the options ask for caching
 * (`cache` truthy) and name a store (`cacheStore`, defaulting to
 * genericCacheStore), the call is handed to that store's `get` under the
 * key `<store>.<cacheKey or url>`, with a thunk that performs the request
 * and the `cacheAge` as maximum age; otherwise the request is performed
 * directly. Either way the four cache options are not passed on.
 */
module WithCache {
  import opened Values
  import opened Traces

  /** The options this middleware consumes. */
  const CacheKeys: set<string> := {"cacheStore", "cache", "cacheAge", "cacheKey"}

  /** makeKey: `${cacheStore}.${key}`. */
  function MakeKey(store: Value, key: Value): (k: string)
    ensures k == ToText(store) + "." + ToText(key)
    ensures k[|ToText(store)|] == '.'
  {
    ToText(store) + "." + ToText(key)
  }

  /** For one store, different key texts make different store keys. */
  lemma MakeKeyInjective(store: Value, key1: Value, key2: Value)
    requires MakeKey(store, key1) == MakeKey(store, key2)
    ensures ToText(key1) == ToText(key2)
  {
    var n := |ToText(store)| + 1;
    assert MakeKey(store, key1)[n..] == ToText(key1);
    assert MakeKey(store, key2)[n..] == ToText(key2);
  }

  /** `cacheKey || url`. */
  function KeyTarget(m: Options, url: string): (v: Value)
    ensures Truthy(Get(m, "cacheKey")) ==> v == Get(m, "cacheKey")
    ensures !Truthy(Get(m, "cacheKey")) ==> v == Str(url)
  {
    if Truthy(Get(m, "cacheKey")) then Get(m, "cacheKey") else Str(url)
  }

  /** `cacheStore = genericCacheStore`. */
  function StoreName(m: Options, generic: Value): (v: Value)
    ensures "cacheStore" in m && m["cacheStore"] != Undefined ==> v == m["cacheStore"]
    ensures Get(m, "cacheStore") == Undefined ==> v == generic
  {
    Default(Get(m, "cacheStore"), generic)
  }

  /** `cache && cacheStore`. */
  predicate Engaged(m: Options, generic: Value) {
    Truthy(Get(m, "cache")) && Truthy(StoreName(m, generic))
  }

  /** `params`: the options without the cache keys. */
  function Stripped(m: Options): (params: Options)
    ensures params.Keys == m.Keys - CacheKeys
    ensures forall k :: k in params ==> params[k] == m[k]
  {
    m - CacheKeys
  }

  /** The two store calls of an engaged request: makeIDB(store) and store.get(key, { fetch, maxAge }). */
  function StoreEffects(m: Options, generic: Value, url: string): seq<Effect> {
    var store := StoreName(m, generic);
    [OpenStore(store), StoreGet(MakeKey(store, KeyTarget(m, url)), Get(m, "cacheAge"))]
  }

  /** One call of withCache(inner, generic). */
  function CacheCall(inner: Request, generic: Value, url: string, args: Args, w: World): Step {
    var m := OptionsOf(args);
    var params := Stripped(m);
    if Engaged(m, generic) then
      var (answer, w') := TakeStore(w);
      match answer
      case Cached(o) => Step(StoreEffects(m, generic, url), Returned(Pending(o, None)), w')
      case Compute =>
        // the store is taken to run the thunk inside its own promise chain and settle as its promise does
        var f := Forward(inner, CacheLayer, url, params, w');
        Step(StoreEffects(m, generic, url) + f.effects, Returned(Pending(Adopt(f.call), None)), f.world)
    else Forward(inner, CacheLayer, url, params, w)
  }

  function WithCache(inner: Request, generic: Value): Request {
    (url: string, args: Args, w: World) => CacheCall(inner, generic, url, args, w)
  }

  /** How many effects of a trace touch the store. */
  function StoreCalls(fx: seq<Effect>): nat {
    if fx == [] then 0
    else (if fx[0].OpenStore? || fx[0].StoreGet? then 1 else 0) + StoreCalls(fx[1..])
  }

  /**
   * Not engaged: inner is called once with the options minus the cache
   * keys, its result (with its `.abort`) comes back unchanged, and this
   * layer never touches a store.
   */
  lemma BypassForwards(inner: Request, generic: Value, url: string, args: Args, w: World)
    requires !Engaged(OptionsOf(args), generic)
    ensures var s := inner(url, Passed(Stripped(OptionsOf(args))), w);
      var r := CacheCall(inner, generic, url, args, w);
      && r == Step([Invoke(CacheLayer, url, Passed(Stripped(OptionsOf(args))))] + s.effects, s.call, s.world)
      && StoreCalls(r.effects) == StoreCalls(s.effects)
  {
    var s := inner(url, Passed(Stripped(OptionsOf(args))), w);
    assert ([Invoke(CacheLayer, url, Passed(Stripped(OptionsOf(args))))] + s.effects)[1..] == s.effects;
  }

  /**
   * Engaged, and the store answers by itself: the request is never
   * performed, the result is the store's, without `.abort`.
   */
  lemma HitSkipsRequest(inner: Request, generic: Value, url: string, args: Args, w: World)
    requires Engaged(OptionsOf(args), generic)
    requires |w.store| > 0 && w.store[0].Cached?
    ensures var r := CacheCall(inner, generic, url, args, w);
      && r.effects == StoreEffects(OptionsOf(args), generic, url)
      && IssuedBy(r.effects, CacheLayer) == 0
      && r.call == Returned(Pending(w.store[0].outcome, None))
      && r.world == w.(store := w.store[1..])
  {
    IssuedByNone(StoreEffects(OptionsOf(args), generic, url), CacheLayer);
  }

  /**
   * Engaged, and the store calls the fetch thunk: inner is called exactly
   * once, after the store calls, with the options minus the cache keys;
   * the store's promise follows the request's and has no `.abort`.
   */
  lemma MissRunsRequest(inner: Request, generic: Value, url: string, args: Args, w: World)
    requires Engaged(OptionsOf(args), generic)
    requires |w.store| > 0 && w.store[0].Compute?
    ensures var params := Stripped(OptionsOf(args));
      var s := inner(url, Passed(params), w.(store := w.store[1..]));
      CacheCall(inner, generic, url, args, w) ==
        Step(StoreEffects(OptionsOf(args), generic, url) + [Invoke(CacheLayer, url, Passed(params))] + s.effects,
             Returned(Pending(Adopt(s.call), None)), s.world)
  {
  }

  /**
   * The store key is `<store>.<cacheKey>` when a cacheKey is given and
   * `<store>.<url>` otherwise; the maximum age is `cacheAge` as given.
   */
  lemma StoreKeyChoice(m: Options, generic: Value, url: string)
    requires Engaged(m, generic)
    ensures var store := StoreName(m, generic);
      && StoreEffects(m, generic, url)[0] == OpenStore(store)
      && StoreEffects(m, generic, url)[1].maxAge == Get(m, "cacheAge")
      && (Truthy(Get(m, "cacheKey")) ==> StoreEffects(m, generic, url)[1].key == ToText(store) + "." + ToText(Get(m, "cacheKey")))
      && (!Truthy(Get(m, "cacheKey")) ==> StoreEffects(m, generic, url)[1].key == ToText(store) + "." + url)
  {
  }

  /** With no generic store (as in the default stack), caching needs a truthy `cacheStore` option. */
  lemma NoGenericStoreNeedsOption(m: Options)
    ensures Engaged(m, Undefined) <==> Truthy(Get(m, "cache")) && Truthy(Get(m, "cacheStore"))
  {
  }
}
