/**
 * withBgSync: without a `bgSync` callback the call goes straight through.
 * With one, the method must be post, put or delete (in any case) or the
 * call throws before anything is sent. The first call's response is
 * returned unchanged unless its statusText is "offline"; then
 * - optimistic (the default): the call is repeated with a `bgSync: "1"`
 *   header; only if that retry reports "bgSynced" is the callback called,
 *   and only if the callback resolves is `{type: "removeBgSynced", url,
 *   method}` posted to the service worker;
 * - pessimistic: the callback is called first and the marked retry is sent
 *   only if it resolves;
 * and in both cases rejections along the way are swallowed and the caller
 * gets `{status: -1, statusText: "offline"}`. The result's `.abort` is the
 * first call's.
 */
module WithBgSync {
  import opened Values
  import opened Traces

  const SupportedMethods: seq<string> := ["post", "delete", "put"]

  /** offlineResponse() */
  function OfflineResponse(): Value {
    Obj(map["status" := Num(-1), "statusText" := Str("offline")])
  }

  /** The Error thrown for a method background sync does not support. */
  function NotSupported(verb: Value): Value {
    Exc(PlainError, "'" + ToText(verb) + "' request method is not supported by the bgSync", Undefined)
  }

  /** The tail of the message, which starts right after the quoted method. */
  const NotSupportedTail: string := "' request method is not supported by the bgSync"

  lemma TailSplits()
    ensures NotSupportedTail == "' request method is " + "not supported" + " by the bgSync"
  {
  }

  lemma NotSupportedMentions(verb: Value)
    ensures NotSupported(verb).message == "'" + ToText(verb) + NotSupportedTail
    ensures Mentions(NotSupported(verb).message, "not supported")
  {
    var head := "'" + ToText(verb) + "' request method is ";
    TailSplits();
    assert NotSupported(verb).message == head + "not supported" + " by the bgSync";
    OccursBetween(head, "not supported", " by the bgSync");
  }

  /**
   * The check `availableBgSyncMethods.includes(params?.method?.toLowerCase())`:
   * None when it passes, otherwise what it throws. A method that is neither
   * a string nor nullish has no toLowerCase, so the call throws a TypeError.
   */
  function MethodCheck(verb: Value): (err: Option<Value>)
    ensures err.None? <==> verb.Str? && Lower(verb.s) in SupportedMethods
    ensures verb.Undefined? || verb.Null? ==> err == Some(NotSupported(verb))
    ensures verb.Str? && Lower(verb.s) !in SupportedMethods ==> err == Some(NotSupported(verb))
    ensures !verb.Str? && !verb.Undefined? && !verb.Null? ==> err.Some? && err.value.Exc? && err.value.kind == TypeError
  {
    match verb
    case Str(s) => if Lower(s) in SupportedMethods then None else Some(NotSupported(verb))
    case Undefined => Some(NotSupported(verb))
    case Null => Some(NotSupported(verb))
    case _ => Some(NotAFunction("params?.method?.toLowerCase"))
  }

  /** POST, as the tests send it, is supported. */
  lemma PostSupported()
    ensures MethodCheck(Str("POST")).None?
  {
    assert Lower("POST") == "post";
  }

  /** Upper- or lower-case, POST, PUT and DELETE pass and GET and PATCH do not. */
  lemma MethodCheckExamples()
    ensures MethodCheck(Str("POST")).None? && MethodCheck(Str("Put")).None? && MethodCheck(Str("delete")).None?
    ensures MethodCheck(Str("GET")) == Some(NotSupported(Str("GET")))
    ensures MethodCheck(Str("PATCH")).Some?
    ensures MethodCheck(Undefined) == Some(NotSupported(Undefined))
  {
    MethodCheckAccepts();
    MethodCheckRejects();
  }

  lemma MethodCheckAccepts()
    ensures MethodCheck(Str("POST")).None? && MethodCheck(Str("Put")).None? && MethodCheck(Str("delete")).None?
  {
    assert Lower("POST") == "post";
    assert Lower("Put") == "put";
    assert Lower("delete") == "delete";
  }

  lemma MethodCheckRejects()
    ensures MethodCheck(Str("GET")) == Some(NotSupported(Str("GET")))
    ensures MethodCheck(Str("PATCH")).Some?
    ensures MethodCheck(Undefined) == Some(NotSupported(Undefined))
  {
    assert Lower("GET") == "get";
    assert Lower("PATCH") == "patch";
  }

  /** `params`: the options without the two keys this middleware consumes. */
  function Params(m: Options): (params: Options)
    ensures params.Keys == m.Keys - {"bgSync", "bgSyncOptimistic"}
    ensures forall k :: k in params ==> params[k] == m[k]
  {
    m - {"bgSync", "bgSyncOptimistic"}
  }

  /** `bgSyncOptimistic = true`. */
  predicate IsOptimistic(m: Options) {
    Truthy(Default(Get(m, "bgSyncOptimistic"), Bool(true)))
  }

  /** The options of the marked retry: `{ ...params, headers: { ...headers, bgSync: "1" } }`. */
  function RetryOptions(params: Options): (r: Options)
    ensures r.Keys == params.Keys + {"headers"}
    ensures forall k :: k in params && k != "headers" ==> r[k] == params[k]
    ensures r["headers"].Obj? && "bgSync" in r["headers"].fields && r["headers"].fields["bgSync"] == Str("1")
    ensures forall h :: h in Spread(Get(params, "headers")) && h != "bgSync" ==>
              h in r["headers"].fields && r["headers"].fields[h] == Spread(Get(params, "headers"))[h]
  {
    WithHeader(params, "bgSync", Str("1"))
  }

  /** The message that asks the service worker to drop the queued request. */
  function RemoveMessage(url: string, verb: Value): Value {
    Obj(map["type" := Str("removeBgSynced"), "url" := Str(url), "method" := verb])
  }

  /** A run of the chain after some point: its effects, how its promise ends, the world after it. */
  datatype Tail = Tail(effects: seq<Effect>, outcome: Settled, world: World)

  /** removeBgSyncedRequest inside a `.then`: with no service-worker controller it throws there. */
  function RemoveBgSynced(url: string, verb: Value, w: World): (t: Tail)
    ensures w.serviceWorker ==> t == Tail([Posted(RemoveMessage(url, verb))], Fulfilled(Undefined), w)
    ensures !w.serviceWorker ==> t.effects == [] && t.outcome.Rejected? && t.world == w
  {
    if w.serviceWorker then Tail([Posted(RemoveMessage(url, verb))], Fulfilled(Undefined), w)
    else Tail([], Rejected(ReadOfNullish("postMessage")), w)
  }

  /** The handler of the optimistic retry's response. */
  function AfterRetry(url: string, params: Options, bgSync: Value, o: Settled, w: World): Tail {
    match o
    case Unsettled => Tail([], Unsettled, w)
    case Rejected(r) => Tail([], Rejected(r), w)
    case Fulfilled(response) =>
      match Prop(response, "statusText")
      case None => Tail([], Rejected(ReadOfNullish("statusText")), w)
      case Some(status) =>
        if status != Str("bgSynced") then Tail([], Fulfilled(Undefined), w)
        else
          var c := CallFn(bgSync, w);
          match c.answer
          case Throws(e) => Tail(c.effects, Rejected(e), c.world)
          case Returns(_) => Tail(c.effects, Rejected(NotAFunction("bgSync(...).then")), c.world)
          case Hangs => Tail(c.effects, Unsettled, c.world)
          case Rejects(r) => Tail(c.effects, Rejected(r), c.world)
          case Resolves(_) =>
            var n := RemoveBgSynced(url, Get(params, "method"), c.world);
            Tail(c.effects + n.effects, n.outcome, n.world)
  }

  /**
   * optimistic(): the marked retry, then the callback if it reports
   * "bgSynced". Threw means optimistic() itself threw.
   */
  function Optimistic(inner: Request, url: string, params: Options, bgSync: Value, w: World): Step {
    var retry := Forward(inner, BgSyncLayer, url, RetryOptions(params), w);
    match retry.call
    case Threw(e) => retry
    case Returned(p) =>
      var t := AfterRetry(url, params, bgSync, p.outcome, retry.world);
      Step(retry.effects + t.effects, Returned(Pending(t.outcome, None)), t.world)
  }

  /**
   * pessimistic(): `bgSync().then(bgSyncRequest)`. Threw means
   * pessimistic() itself threw (the callback threw, or returned no promise).
   */
  function Pessimistic(inner: Request, url: string, params: Options, bgSync: Value, w: World): Step {
    var c := CallFn(bgSync, w);
    match c.answer
    case Throws(e) => Step(c.effects, Threw(e), c.world)
    case Returns(_) => Step(c.effects, Threw(NotAFunction("bgSync(...).then")), c.world)
    case Hangs => Step(c.effects, Returned(Pending(Unsettled, None)), c.world)
    case Rejects(r) => Step(c.effects, Returned(Pending(Rejected(r), None)), c.world)
    case Resolves(_) =>
      var retry := Forward(inner, BgSyncLayer, url, RetryOptions(params), c.world);
      Step(c.effects + retry.effects, Returned(Pending(Adopt(retry.call), None)), retry.world)
  }

  /**
   * `action.catch(noop).then(offlineResponse)`: whatever the action's
   * promise does, the sentinel, unless it never settles; a throw while
   * building the action escapes the handler.
   */
  function Finish(action: Call): (o: Settled)
    ensures action.Threw? ==> o == Rejected(action.error)
    ensures action.Returned? && !action.pending.outcome.Unsettled? ==> o == Fulfilled(OfflineResponse())
    ensures action.Returned? && action.pending.outcome.Unsettled? ==> o == Unsettled
  {
    match action
    case Threw(e) => Rejected(e)
    case Returned(p) => if p.outcome.Unsettled? then Unsettled else Fulfilled(OfflineResponse())
  }

  /** The handler of the first call's response. */
  function OnResponse(inner: Request, url: string, params: Options, bgSync: Value, optimistic: bool,
                      o: Settled, w: World): Tail
  {
    match o
    case Unsettled => Tail([], Unsettled, w)
    case Rejected(r) => Tail([], Rejected(r), w)
    case Fulfilled(response) =>
      match Prop(response, "statusText")
      case None => Tail([], Rejected(ReadOfNullish("statusText")), w)
      case Some(status) =>
        if status != Str("offline") then Tail([], Fulfilled(response), w)
        else
          var action := if optimistic then Optimistic(inner, url, params, bgSync, w)
                        else Pessimistic(inner, url, params, bgSync, w);
          Tail(action.effects, Finish(action.call), action.world)
  }

  /** One call of withBgSync(inner). */
  function BgSyncCall(inner: Request, url: string, args: Args, w: World): Step {
    var m := OptionsOf(args);
    var bgSync := Get(m, "bgSync");
    var params := Params(m);
    if !Truthy(bgSync) then Forward(inner, BgSyncLayer, url, params, w)
    else
      match MethodCheck(Get(params, "method"))
      case Some(err) => Step([], Threw(err), w)
      case None =>
        var first := Forward(inner, BgSyncLayer, url, params, w);
        match first.call
        case Threw(e) => first
        case Returned(p) =>
          var t := OnResponse(inner, url, params, bgSync, IsOptimistic(m), p.outcome, first.world);
          Step(first.effects + t.effects, Returned(Pending(t.outcome, p.abort)), t.world)
  }

  function WithBgSync(inner: Request): Request {
    (url: string, args: Args, w: World) => BgSyncCall(inner, url, args, w)
  }

  // ---------------------------------------------------------------------
  // Properties, for any wrapped request `inner`.
  // ---------------------------------------------------------------------

  /** No callback: one call of inner with the options minus the bgSync keys; its result unchanged. */
  lemma PassesThroughWithoutCallback(inner: Request, url: string, args: Args, w: World)
    requires !Truthy(Get(OptionsOf(args), "bgSync"))
    ensures var params := Params(OptionsOf(args));
      var s := inner(url, Passed(params), w);
      BgSyncCall(inner, url, args, w) == Step([Invoke(BgSyncLayer, url, Passed(params))] + s.effects, s.call, s.world)
  {
  }

  /** With a callback, an unsupported method throws before any call is issued. */
  lemma UnsupportedMethodThrows(inner: Request, url: string, args: Args, w: World)
    requires Truthy(Get(OptionsOf(args), "bgSync"))
    requires MethodCheck(Get(OptionsOf(args), "method")).Some?
    ensures var r := BgSyncCall(inner, url, args, w);
      r.effects == [] && r.world == w && r.call == Threw(MethodCheck(Get(OptionsOf(args), "method")).value)
    ensures var verb := Get(OptionsOf(args), "method");
      verb.Str? || verb.Undefined? || verb.Null? ==>
        BgSyncCall(inner, url, args, w).call == Threw(NotSupported(verb)) && Mentions(NotSupported(verb).message, "not supported")
  {
    assert Get(Params(OptionsOf(args)), "method") == Get(OptionsOf(args), "method");
    NotSupportedMentions(Get(OptionsOf(args), "method"));
  }

  /** The (unmarked) first call of a supported request with a callback. */
  function FirstCall(inner: Request, url: string, args: Args, w: World): Step {
    inner(url, Passed(Params(OptionsOf(args))), w)
  }

  /**
   * A supported request with a callback issues inner once with the
   * options minus the bgSync keys; whatever it returns, the result keeps
   * its `.abort`, and a synchronous throw propagates.
   */
  lemma FirstCallKeepsAbort(inner: Request, url: string, args: Args, w: World)
    requires Truthy(Get(OptionsOf(args), "bgSync"))
    requires MethodCheck(Get(OptionsOf(args), "method")).None?
    ensures var s := FirstCall(inner, url, args, w);
      var r := BgSyncCall(inner, url, args, w);
      && r.effects[..1 + |s.effects|] == [Invoke(BgSyncLayer, url, Passed(Params(OptionsOf(args))))] + s.effects
      && (s.call.Threw? ==> r.call == s.call)
      && (s.call.Returned? ==> r.call.Returned? && r.call.pending.abort == s.call.pending.abort)
  {
    assert Get(Params(OptionsOf(args)), "method") == Get(OptionsOf(args), "method");
  }

  /** A first response that is not offline (or a rejection) is passed on unchanged and the callback is never called. */
  lemma OnlineResponsePassedOn(inner: Request, url: string, args: Args, w: World)
    requires Truthy(Get(OptionsOf(args), "bgSync"))
    requires MethodCheck(Get(OptionsOf(args), "method")).None?
    requires FirstCall(inner, url, args, w).call.Returned?
    requires var o := FirstCall(inner, url, args, w).call.pending.outcome;
      o.Rejected? || (o.Fulfilled? && Prop(o.value, "statusText").Some? && Prop(o.value, "statusText").value != Str("offline"))
    ensures var s := FirstCall(inner, url, args, w);
      BgSyncCall(inner, url, args, w) ==
        Step([Invoke(BgSyncLayer, url, Passed(Params(OptionsOf(args))))] + s.effects, s.call, s.world)
  {
    assert Get(Params(OptionsOf(args)), "method") == Get(OptionsOf(args), "method");
  }

  /** The first call answered "offline". */
  ghost predicate WentOffline(inner: Request, url: string, args: Args, w: World) {
    && Truthy(Get(OptionsOf(args), "bgSync"))
    && MethodCheck(Get(OptionsOf(args), "method")).None?
    && var s := FirstCall(inner, url, args, w);
    && s.call.Returned?
    && s.call.pending.outcome.Fulfilled?
    && Prop(s.call.pending.outcome.value, "statusText") == Some(Str("offline"))
  }

  /** The marked retry that follows an offline first call, in the world it is sent in. */
  function RetryCall(inner: Request, url: string, args: Args, w: World): Step {
    inner(url, Passed(RetryOptions(Params(OptionsOf(args)))), FirstCall(inner, url, args, w).world)
  }

  /** A call whose promise fulfils with a response whose statusText is "bgSynced". */
  predicate ReportsSynced(c: Call) {
    c.Returned? && c.pending.outcome.Fulfilled? && Prop(c.pending.outcome.value, "statusText") == Some(Str("bgSynced"))
  }

  /** What can follow the marked retry in the optimistic chain: nothing, the callback, or the callback and the removal message. */
  function AfterRetryEffects(url: string, params: Options, bgSync: Value): set<seq<Effect>> {
    {[], [Called(bgSync)], [Called(bgSync), Posted(RemoveMessage(url, Get(params, "method")))]}
  }

  /**
   * The handler of the retry's response: unless it reports "bgSynced" it
   * adds nothing, changes nothing and settles iff the retry settled;
   * otherwise it adds at most the callback and the removal message.
   */
  lemma AfterRetryShape(url: string, params: Options, bgSync: Value, o: Settled, w: World)
    ensures var t := AfterRetry(url, params, bgSync, o, w);
      && t.effects in AfterRetryEffects(url, params, bgSync)
      && IssuedBy(t.effects, BgSyncLayer) == 0
      && (!ReportsSynced(Returned(Pending(o, None))) ==>
            t.effects == [] && t.world == w && (t.outcome.Unsettled? <==> o.Unsettled?))
  {
    var t := AfterRetry(url, params, bgSync, o, w);
    if ReportsSynced(Returned(Pending(o, None))) && bgSync.Func? {
      var c := CallFn(bgSync, w);
      if c.answer.Resolves? && c.world.serviceWorker {
        assert t.effects == [Called(bgSync), Posted(RemoveMessage(url, Get(params, "method")))];
      } else {
        assert t.effects == [Called(bgSync)];
      }
    } else {
      assert t.effects == [];
    }
    IssuedByNone(t.effects, BgSyncLayer);
  }

  /** optimistic(): the marked retry, then what AfterRetryShape allows. */
  lemma OptimisticShape(inner: Request, url: string, params: Options, bgSync: Value, w: World)
    ensures var retry := inner(url, Passed(RetryOptions(params)), w);
      var a := Optimistic(inner, url, params, bgSync, w);
      var head := [Invoke(BgSyncLayer, url, Passed(RetryOptions(params)))] + retry.effects;
      && |head| <= |a.effects| && a.effects[..|head|] == head
      && a.effects[|head|..] in AfterRetryEffects(url, params, bgSync)
      && IssuedBy(a.effects, BgSyncLayer) == 1 + IssuedBy(retry.effects, BgSyncLayer)
      && (!ReportsSynced(retry.call) ==> a.effects == head && a.world == retry.world)
      && (retry.call.Threw? ==> a.call == retry.call)
      && (retry.call.Returned? ==> a.call.Returned?)
      && (retry.call.Returned? && !ReportsSynced(retry.call) ==>
            (a.call.pending.outcome.Unsettled? <==> retry.call.pending.outcome.Unsettled?))
  {
    var retry := inner(url, Passed(RetryOptions(params)), w);
    var head := [Invoke(BgSyncLayer, url, Passed(RetryOptions(params)))] + retry.effects;
    var a := Optimistic(inner, url, params, bgSync, w);
    ForwardCounts(inner, BgSyncLayer, url, RetryOptions(params), w, AuthLayer);
    if retry.call.Threw? {
      assert a.effects == head + [];
    } else {
      var t := AfterRetry(url, params, bgSync, retry.call.pending.outcome, retry.world);
      AfterRetryShape(url, params, bgSync, retry.call.pending.outcome, retry.world);
      assert a.effects == head + t.effects;
      assert a.effects[|head|..] == t.effects;
      IssuedByAppend(head, t.effects, BgSyncLayer);
    }
  }

  /**
   * Optimistic, offline: exactly one marked retry follows the first call;
   * unless that retry throws synchronously, the caller gets the offline
   * sentinel (or nothing, if some promise never settles), whatever the
   * retry and the callback do. The callback is called only after a retry
   * that reports "bgSynced"; otherwise nothing follows the retry.
   */
  lemma OptimisticOfflineSentinel(inner: Request, url: string, args: Args, w: World)
    requires WentOffline(inner, url, args, w)
    requires IsOptimistic(OptionsOf(args))
    ensures var params := Params(OptionsOf(args));
      var s := FirstCall(inner, url, args, w);
      var retry := RetryCall(inner, url, args, w);
      var r := BgSyncCall(inner, url, args, w);
      var prefix := [Invoke(BgSyncLayer, url, Passed(params))] + s.effects
                    + [Invoke(BgSyncLayer, url, Passed(RetryOptions(params)))] + retry.effects;
      && |prefix| <= |r.effects| && r.effects[..|prefix|] == prefix
      && r.effects[|prefix|..] in AfterRetryEffects(url, params, Get(OptionsOf(args), "bgSync"))
      && (!ReportsSynced(retry.call) ==> r.effects == prefix && r.world == retry.world)
      && IssuedBy(r.effects, BgSyncLayer) == 2 + IssuedBy(s.effects, BgSyncLayer) + IssuedBy(retry.effects, BgSyncLayer)
      && r.call.Returned?
      && r.call.pending.abort == s.call.pending.abort
      && (retry.call.Returned? ==> r.call.pending.outcome in {Fulfilled(OfflineResponse()), Unsettled})
      && (retry.call.Returned? && !ReportsSynced(retry.call) ==>
            r.call.pending.outcome == (if retry.call.pending.outcome.Unsettled? then Unsettled else Fulfilled(OfflineResponse())))
      && (retry.call.Threw? ==> r.call.pending.outcome == Rejected(retry.call.error))
  {
    var m := OptionsOf(args);
    var params := Params(m);
    var s := FirstCall(inner, url, args, w);
    var action := Optimistic(inner, url, params, Get(m, "bgSync"), s.world);
    OfflineOptimisticStep(inner, url, args, w);
    OptimisticShape(inner, url, params, Get(m, "bgSync"), s.world);
    JoinOptimistic(Invoke(BgSyncLayer, url, Passed(params)), s.effects, Invoke(BgSyncLayer, url, Passed(RetryOptions(params))),
                   RetryCall(inner, url, args, w), action, AfterRetryEffects(url, params, Get(m, "bgSync")),
                   s.call.pending.abort, BgSyncCall(inner, url, args, w));
  }

  /**
   * The bookkeeping of OptimisticOfflineSentinel: the first call's effects
   * joined with an action shaped as OptimisticShape says.
   */
  lemma JoinOptimistic(first: Effect, sfx: seq<Effect>, second: Effect, retry: Step, a: Step,
                       allowed: set<seq<Effect>>, h: Option<Handle>, r: Step)
    requires first.Invoke? && first.layer == BgSyncLayer
    requires r == Step([first] + sfx + a.effects, Returned(Pending(Finish(a.call), h)), a.world)
    requires var head := [second] + retry.effects;
      && |head| <= |a.effects| && a.effects[..|head|] == head
      && a.effects[|head|..] in allowed
      && IssuedBy(a.effects, BgSyncLayer) == 1 + IssuedBy(retry.effects, BgSyncLayer)
      && (!ReportsSynced(retry.call) ==> a.effects == head && a.world == retry.world)
      && (retry.call.Threw? ==> a.call == retry.call)
      && (retry.call.Returned? ==> a.call.Returned?)
      && (retry.call.Returned? && !ReportsSynced(retry.call) ==>
            (a.call.pending.outcome.Unsettled? <==> retry.call.pending.outcome.Unsettled?))
    ensures var prefix := [first] + sfx + [second] + retry.effects;
      && |prefix| <= |r.effects| && r.effects[..|prefix|] == prefix
      && r.effects[|prefix|..] in allowed
      && (!ReportsSynced(retry.call) ==> r.effects == prefix && r.world == retry.world)
      && IssuedBy(r.effects, BgSyncLayer) == 2 + IssuedBy(sfx, BgSyncLayer) + IssuedBy(retry.effects, BgSyncLayer)
      && r.call.Returned?
      && r.call.pending.abort == h
      && (retry.call.Returned? ==> r.call.pending.outcome in {Fulfilled(OfflineResponse()), Unsettled})
      && (retry.call.Returned? && !ReportsSynced(retry.call) ==>
            r.call.pending.outcome == (if retry.call.pending.outcome.Unsettled? then Unsettled else Fulfilled(OfflineResponse())))
      && (retry.call.Threw? ==> r.call.pending.outcome == Rejected(retry.call.error))
  {
    var front := [first] + sfx;
    var head := [second] + retry.effects;
    OptimisticPrefix(front, a.effects, head);
    assert front + head == [first] + sfx + [second] + retry.effects;
    IssuedByAppend(front, a.effects, BgSyncLayer);
    IssuedByAppend([first], sfx, BgSyncLayer);
    FinishOf(a.call);
  }

  /** Optimistic and offline, the call is the first call followed by optimistic() and Finish. */
  lemma OfflineOptimisticStep(inner: Request, url: string, args: Args, w: World)
    requires WentOffline(inner, url, args, w)
    requires IsOptimistic(OptionsOf(args))
    ensures var params := Params(OptionsOf(args));
      var s := FirstCall(inner, url, args, w);
      var a := Optimistic(inner, url, params, Get(OptionsOf(args), "bgSync"), s.world);
      BgSyncCall(inner, url, args, w) ==
        Step([Invoke(BgSyncLayer, url, Passed(params))] + s.effects + a.effects,
             Returned(Pending(Finish(a.call), s.call.pending.abort)), a.world)
  {
    assert Get(Params(OptionsOf(args)), "method") == Get(OptionsOf(args), "method");
  }

  /** Finish gives the sentinel or nothing for a returned action, and the error for a thrown one. */
  lemma FinishOf(c: Call)
    ensures c.Returned? ==> Finish(c) in {Fulfilled(OfflineResponse()), Unsettled}
    ensures c.Returned? ==> (Finish(c).Unsettled? <==> c.pending.outcome.Unsettled?)
    ensures c.Threw? ==> Finish(c) == Rejected(c.error)
  {
  }

  /** Joining the first call's effects with the action's keeps the action's head and tail. */
  lemma OptimisticPrefix(front: seq<Effect>, fx: seq<Effect>, head: seq<Effect>)
    requires |head| <= |fx| && fx[..|head|] == head
    ensures |front + head| <= |front + fx|
    ensures (front + fx)[..|front + head|] == front + head
    ensures (front + fx)[|front + head|..] == fx[|head|..]
    ensures fx == head ==> front + fx == front + head
  {
  }

  /** Optimistic: a retry that does not report "bgSynced" ends the chain; the callback is never called. */
  lemma OptimisticNotSyncedSkipsCallback(inner: Request, url: string, args: Args, w: World)
    requires WentOffline(inner, url, args, w)
    requires IsOptimistic(OptionsOf(args))
    requires var retry := RetryCall(inner, url, args, w);
      retry.call.Returned? && retry.call.pending.outcome.Fulfilled?
      && Prop(retry.call.pending.outcome.value, "statusText").Some?
      && Prop(retry.call.pending.outcome.value, "statusText").value != Str("bgSynced")
    ensures var params := Params(OptionsOf(args));
      var s := FirstCall(inner, url, args, w);
      var retry := RetryCall(inner, url, args, w);
      BgSyncCall(inner, url, args, w) ==
        Step([Invoke(BgSyncLayer, url, Passed(params))] + s.effects
             + [Invoke(BgSyncLayer, url, Passed(RetryOptions(params)))] + retry.effects,
             Returned(Pending(Fulfilled(OfflineResponse()), s.call.pending.abort)),
             retry.world)
  {
    assert Get(Params(OptionsOf(args)), "method") == Get(OptionsOf(args), "method");
  }

  /**
   * Optimistic: after a "bgSynced" retry the callback is called once; the
   * removal message is posted exactly when the callback resolves (and a
   * service-worker controller exists); the caller gets the sentinel.
   */
  lemma OptimisticSyncedCallsCallback(inner: Request, url: string, args: Args, w: World)
    requires WentOffline(inner, url, args, w)
    requires IsOptimistic(OptionsOf(args))
    requires Get(OptionsOf(args), "bgSync").Func?
    requires var retry := RetryCall(inner, url, args, w);
      retry.call.Returned? && retry.call.pending.outcome.Fulfilled?
      && Prop(retry.call.pending.outcome.value, "statusText") == Some(Str("bgSynced"))
    requires var retry := RetryCall(inner, url, args, w);
      |retry.world.answers| > 0 && (retry.world.answers[0].Resolves? || retry.world.answers[0].Rejects?)
    ensures var m := OptionsOf(args);
      var params := Params(m);
      var s := FirstCall(inner, url, args, w);
      var retry := RetryCall(inner, url, args, w);
      var resolved := retry.world.answers[0].Resolves?;
      var posted := if resolved && retry.world.serviceWorker then [Posted(RemoveMessage(url, Get(m, "method")))] else [];
      BgSyncCall(inner, url, args, w) ==
        Step([Invoke(BgSyncLayer, url, Passed(params))] + s.effects
             + [Invoke(BgSyncLayer, url, Passed(RetryOptions(params)))] + retry.effects
             + [Called(Get(m, "bgSync"))] + posted,
             Returned(Pending(Fulfilled(OfflineResponse()), s.call.pending.abort)),
             retry.world.(answers := retry.world.answers[1..]))
  {
    var m := OptionsOf(args);
    var params := Params(m);
    var bgSync := Get(m, "bgSync");
    assert Get(params, "method") == Get(m, "method");
    var s := FirstCall(inner, url, args, w);
    var retry := RetryCall(inner, url, args, w);
    var posted := if retry.world.answers[0].Resolves? && retry.world.serviceWorker
                  then [Posted(RemoveMessage(url, Get(m, "method")))] else [];
    OptimisticSyncedHandler(inner, url, params, bgSync, s.call.pending.outcome, s.world);
    var ot := OnResponse(inner, url, params, bgSync, true, s.call.pending.outcome, s.world);
    assert ot.effects == [Invoke(BgSyncLayer, url, Passed(RetryOptions(params)))] + retry.effects + ([Called(bgSync)] + posted);
    assert ot.world == retry.world.(answers := retry.world.answers[1..]);
    assert ot.outcome == Fulfilled(OfflineResponse());
    assert BgSyncCall(inner, url, args, w) ==
      Step([Invoke(BgSyncLayer, url, Passed(params))] + s.effects + ot.effects, Returned(Pending(ot.outcome, s.call.pending.abort)), ot.world);
    Reassociate([Invoke(BgSyncLayer, url, Passed(params))] + s.effects, Invoke(BgSyncLayer, url, Passed(RetryOptions(params))), retry.effects,
                Called(bgSync), posted);
  }

  /** The optimistic handler of an offline response, when the marked retry reports "bgSynced". */
  lemma OptimisticSyncedHandler(inner: Request, url: string, params: Options, bgSync: Value, o: Settled, w: World)
    requires bgSync.Func?
    requires o.Fulfilled? && Prop(o.value, "statusText") == Some(Str("offline"))
    requires var retry := inner(url, Passed(RetryOptions(params)), w);
      && retry.call.Returned? && retry.call.pending.outcome.Fulfilled?
      && Prop(retry.call.pending.outcome.value, "statusText") == Some(Str("bgSynced"))
      && |retry.world.answers| > 0 && (retry.world.answers[0].Resolves? || retry.world.answers[0].Rejects?)
    ensures var retry := inner(url, Passed(RetryOptions(params)), w);
      var posted := if retry.world.answers[0].Resolves? && retry.world.serviceWorker
                    then [Posted(RemoveMessage(url, Get(params, "method")))] else [];
      OnResponse(inner, url, params, bgSync, true, o, w) ==
        Tail([Invoke(BgSyncLayer, url, Passed(RetryOptions(params)))] + retry.effects + ([Called(bgSync)] + posted),
             Fulfilled(OfflineResponse()), retry.world.(answers := retry.world.answers[1..]))
  {
    var retry := inner(url, Passed(RetryOptions(params)), w);
    var rf := Forward(inner, BgSyncLayer, url, RetryOptions(params), w);
    var t := AfterRetry(url, params, bgSync, retry.call.pending.outcome, retry.world);
    SyncedRetryCallsBack(url, params, bgSync, retry.call.pending.outcome, retry.world);
    var act := Optimistic(inner, url, params, bgSync, w);
    assert act == Step(rf.effects + t.effects, Returned(Pending(t.outcome, None)), t.world);
    assert Finish(act.call) == Fulfilled(OfflineResponse());
  }

  /** Regrouping the effects of a chain. */
  lemma Reassociate(x: seq<Effect>, d: Effect, y: seq<Effect>, e: Effect, tail: seq<Effect>)
    ensures x + ([d] + y + ([e] + tail)) == x + [d] + y + [e] + tail
  {
  }

  /**
   * The handler of a "bgSynced" retry: one call of the callback and, when
   * it resolves with a service-worker controller, the removal message.
   */
  lemma SyncedRetryCallsBack(url: string, params: Options, bgSync: Value, o: Settled, w: World)
    requires bgSync.Func?
    requires o.Fulfilled? && Prop(o.value, "statusText") == Some(Str("bgSynced"))
    requires |w.answers| > 0 && (w.answers[0].Resolves? || w.answers[0].Rejects?)
    ensures var posted := if w.answers[0].Resolves? && w.serviceWorker then [Posted(RemoveMessage(url, Get(params, "method")))] else [];
      var t := AfterRetry(url, params, bgSync, o, w);
      && t.effects == [Called(bgSync)] + posted
      && t.world == w.(answers := w.answers[1..])
      && !t.outcome.Unsettled?
  {
    var c := CallFn(bgSync, w);
    if c.answer.Resolves? {
      var n := RemoveBgSynced(url, Get(params, "method"), c.world);
      assert c.world.serviceWorker == w.serviceWorker;
    }
  }

  /**
   * Pessimistic: the callback is called first; if it rejects or never
   * settles, no retry is ever sent, and the caller gets the sentinel or
   * nothing.
   */
  lemma PessimisticRejectedNoRetry(inner: Request, url: string, args: Args, w: World)
    requires WentOffline(inner, url, args, w)
    requires !IsOptimistic(OptionsOf(args))
    requires Get(OptionsOf(args), "bgSync").Func?
    requires var s := FirstCall(inner, url, args, w);
      |s.world.answers| > 0 && (s.world.answers[0].Rejects? || s.world.answers[0].Hangs?)
    ensures var m := OptionsOf(args);
      var s := FirstCall(inner, url, args, w);
      BgSyncCall(inner, url, args, w) ==
        Step([Invoke(BgSyncLayer, url, Passed(Params(m)))] + s.effects + [Called(Get(m, "bgSync"))],
             Returned(Pending(if s.world.answers[0].Hangs? then Unsettled else Fulfilled(OfflineResponse()),
                              s.call.pending.abort)),
             s.world.(answers := s.world.answers[1..]))
  {
    assert Get(Params(OptionsOf(args)), "method") == Get(OptionsOf(args), "method");
  }

  /**
   * Pessimistic: if the callback resolves, exactly one marked retry is
   * sent after it; the caller gets the sentinel whatever the retry does,
   * unless it never settles.
   */
  lemma PessimisticResolvedRetries(inner: Request, url: string, args: Args, w: World)
    requires WentOffline(inner, url, args, w)
    requires !IsOptimistic(OptionsOf(args))
    requires Get(OptionsOf(args), "bgSync").Func?
    requires var s := FirstCall(inner, url, args, w);
      |s.world.answers| > 0 && s.world.answers[0].Resolves?
    ensures var m := OptionsOf(args);
      var params := Params(m);
      var s := FirstCall(inner, url, args, w);
      var later := s.world.(answers := s.world.answers[1..]);
      var retry := inner(url, Passed(RetryOptions(params)), later);
      var r := BgSyncCall(inner, url, args, w);
      && r.effects == [Invoke(BgSyncLayer, url, Passed(params))] + s.effects + [Called(Get(m, "bgSync"))]
                      + [Invoke(BgSyncLayer, url, Passed(RetryOptions(params)))] + retry.effects
      && r.call.Returned? && r.call.pending.abort == s.call.pending.abort
      && r.call.pending.outcome == (if Adopt(retry.call).Unsettled? then Unsettled else Fulfilled(OfflineResponse()))
  {
    assert Get(Params(OptionsOf(args)), "method") == Get(OptionsOf(args), "method");
  }

  /**
   * Pessimistic: a callback that throws, or returns something that is not a
   * promise, makes the handler throw, and the caller's promise rejects
   * instead of giving the sentinel; no retry is sent.
   */
  lemma PessimisticSyncFailureRejects(inner: Request, url: string, args: Args, w: World)
    requires WentOffline(inner, url, args, w)
    requires !IsOptimistic(OptionsOf(args))
    requires var s := FirstCall(inner, url, args, w);
      var c := CallFn(Get(OptionsOf(args), "bgSync"), s.world);
      c.answer.Throws? || c.answer.Returns?
    ensures var r := BgSyncCall(inner, url, args, w);
      r.call.Returned? && r.call.pending.outcome.Rejected?
      && IssuedBy(r.effects, BgSyncLayer) == 1 + IssuedBy(FirstCall(inner, url, args, w).effects, BgSyncLayer)
  {
    var m := OptionsOf(args);
    var params := Params(m);
    assert Get(params, "method") == Get(m, "method");
    var s := FirstCall(inner, url, args, w);
    var c := CallFn(Get(m, "bgSync"), s.world);
    var r := BgSyncCall(inner, url, args, w);
    assert r.effects == [Invoke(BgSyncLayer, url, Passed(params))] + s.effects + c.effects;
    IssuedByAppend([Invoke(BgSyncLayer, url, Passed(params))], s.effects, BgSyncLayer);
    IssuedByAppend([Invoke(BgSyncLayer, url, Passed(params))] + s.effects, c.effects, BgSyncLayer);
    assert IssuedBy(c.effects, BgSyncLayer) == 0 by {
      if c.effects != [] {
        assert c.effects == [Called(Get(m, "bgSync"))];
      }
    }
  }
}
