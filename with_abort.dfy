/**
 * withAbort: each call makes its own controller, starts a timer that
 * aborts it after `timeoutMs` (default 5000), passes the controller's
 * signal to the wrapped request, clears the timer when the request
 * succeeds, and attaches an `.abort` that aborts the controller and clears
 * the timer.
 *
 * The race between the timer, the wrapped request and the caller is the
 * state machine Next over events; class Abortable keeps that state in
 * fields as the source does; AbortCall is one call run to settlement for
 * the request stack.
 */
module WithAbort {
  import opened Values
  import opened AbortControllers
  import opened Traces

  const DefaultTimeoutMs: int := 5000

  /** The delay given to setTimeout. */
  function TimeoutOf(m: Options): (delay: Value)
    ensures Get(m, "timeoutMs") == Undefined ==> delay == Num(DefaultTimeoutMs)
    ensures Get(m, "timeoutMs") != Undefined ==> delay == m["timeoutMs"]
  {
    Default(Get(m, "timeoutMs"), Num(DefaultTimeoutMs))
  }

  /** `{ signal, ...params }` where params is the options without timeoutMs. */
  function AbortOptions(m: Options, signal: Value): (r: Options)
    ensures r.Keys == (m.Keys - {"timeoutMs"}) + {"signal"}
    ensures "signal" !in m ==> r["signal"] == signal
    ensures forall k :: k in m && k != "timeoutMs" ==> r[k] == m[k]
  {
    map["signal" := signal] + (m - {"timeoutMs"})
  }

  /** What can happen to a call after it started. */
  datatype Event =
    | TimerFires
    | InnerResolves(value: Value)
    | InnerRejects(reason: Value)
    | CallerAborts

  /**
   * The state of one call: whether its timer is pending, its controller's
   * signal.aborted, how its promise ended, how many times its controller's
   * abort was called, and how many of those calls came from the timer.
   */
  datatype AbortState = AbortState(
    timerPending: bool,
    signalAborted: bool,
    outcome: Settled,
    aborts: nat,
    timerAborts: nat)

  /** Right after the call: timer pending, nothing aborted, promise pending. */
  function Started(): AbortState {
    AbortState(true, false, Unsettled, 0, 0)
  }

  function Next(p: Platform, s: AbortState, e: Event): AbortState {
    match e
    case TimerFires =>
      if s.timerPending then
        s.(timerPending := false, signalAborted := AbortedAfterAbort(p, s.signalAborted),
           aborts := s.aborts + 1, timerAborts := s.timerAborts + 1)
      else s
    case InnerResolves(v) =>
      if s.outcome.Unsettled? then s.(timerPending := false, outcome := Fulfilled(v)) else s
    case InnerRejects(r) =>
      if s.outcome.Unsettled? then s.(outcome := Rejected(r)) else s
    case CallerAborts =>
      s.(timerPending := false, signalAborted := AbortedAfterAbort(p, s.signalAborted), aborts := s.aborts + 1)
  }

  function Replay(p: Platform, s: AbortState, events: seq<Event>): AbortState
    decreases |events|
  {
    if events == [] then s else Replay(p, Next(p, s, events[0]), events[1..])
  }

  /** The event a settled wrapped request delivers; nothing for one that never settles. */
  function Settle(p: Platform, s: AbortState, o: Settled): AbortState {
    match o
    case Fulfilled(v) => Next(p, s, InnerResolves(v))
    case Rejected(r) => Next(p, s, InnerRejects(r))
    case Unsettled => s
  }

  /** The timer can abort at most once, and only while it is pending. */
  ghost predicate TimerBudget(s: AbortState) {
    s.timerAborts + (if s.timerPending then 1 else 0) <= 1 && s.timerAborts <= s.aborts
  }

  lemma {:induction false} ReplayKeepsTimerBudget(p: Platform, s: AbortState, events: seq<Event>)
    requires TimerBudget(s)
    ensures TimerBudget(Replay(p, s, events))
    decreases |events|
  {
    if events != [] {
      ReplayKeepsTimerBudget(p, Next(p, s, events[0]), events[1..]);
    }
  }

  /** Whatever happens to a call, its timer aborts the controller at most once. */
  lemma TimerAbortsAtMostOnce(p: Platform, events: seq<Event>)
    ensures Replay(p, Started(), events).timerAborts <= 1
  {
    ReplayKeepsTimerBudget(p, Started(), events);
  }

  lemma {:induction false} NoTimerOnceCleared(p: Platform, s: AbortState, events: seq<Event>)
    requires !s.timerPending
    ensures !Replay(p, s, events).timerPending
    ensures Replay(p, s, events).timerAborts == s.timerAborts
    decreases |events|
  {
    if events != [] {
      NoTimerOnceCleared(p, Next(p, s, events[0]), events[1..]);
    }
  }

  /**
   * If the request has not settled when the timer fires, the controller is
   * aborted exactly once by the timer and the timer never fires again.
   */
  lemma TimeoutAbortsExactlyOnce(p: Platform, events: seq<Event>)
    ensures Next(p, Started(), TimerFires).aborts == 1
    ensures Replay(p, Started(), [TimerFires] + events).timerAborts == 1
    ensures !Replay(p, Started(), [TimerFires] + events).timerPending
  {
    assert ([TimerFires] + events)[1..] == events;
    NoTimerOnceCleared(p, Next(p, Started(), TimerFires), events);
  }

  /** After `abortable.abort()` the timer is cleared: nothing that happens later lets it fire. */
  lemma CallerAbortSilencesTimer(p: Platform, s: AbortState, events: seq<Event>)
    ensures Replay(p, Next(p, s, CallerAborts), events).timerAborts == s.timerAborts
    ensures !Replay(p, Next(p, s, CallerAborts), events).timerPending
    ensures Next(p, s, CallerAborts).aborts == s.aborts + 1
  {
    NoTimerOnceCleared(p, Next(p, s, CallerAborts), events);
  }

  /** A promise settles once: no later event, an abort included, changes how it ended. */
  lemma {:induction false} OutcomeIsFinal(p: Platform, s: AbortState, events: seq<Event>)
    requires !s.outcome.Unsettled?
    ensures Replay(p, s, events).outcome == s.outcome
    decreases |events|
  {
    if events != [] {
      OutcomeIsFinal(p, Next(p, s, events[0]), events[1..]);
    }
  }

  /** Success clears the timer before the value is passed on unchanged; a rejection passes on and leaves the timer. */
  lemma SettlementEffects(p: Platform, v: Value, r: Value)
    ensures Settle(p, Started(), Fulfilled(v)) == Started().(timerPending := false, outcome := Fulfilled(v))
    ensures Settle(p, Started(), Rejected(r)) == Started().(outcome := Rejected(r))
    ensures Settle(p, Started(), Unsettled) == Started()
  {
  }

  /** One call of the abortable request, with its state kept in fields. */
  class Abortable {
    const controller: Controller
    /** the delay given to setTimeout */
    const delay: Value
    /** the options handed to the wrapped request */
    const forwarded: Options
    var timerPending: bool
    var outcome: Settled
    var aborts: nat
    var timerAborts: nat

    function State(): AbortState
      reads this, controller
    {
      AbortState(timerPending, controller.aborted, outcome, aborts, timerAborts)
    }

    /** The call: get a controller, start the timer, call the wrapped request with the signal. */
    constructor Start(params: Options, p: Platform, id: nat)
      ensures fresh(controller) && controller.platform == p && controller.id == id
      ensures delay == TimeoutOf(params)
      ensures forwarded == AbortOptions(params, SignalValue(p, id))
      ensures State() == Started()
    {
      controller := new Controller(p, id);
      delay := TimeoutOf(params);
      forwarded := AbortOptions(params, SignalValue(p, id));
      timerPending := true;
      outcome := Unsettled;
      aborts := 0;
      timerAborts := 0;
    }

    /** The pair's abort, which never throws; its result is dropped. */
    method AbortController()
      modifies this, controller
      ensures State() == old(State()).(signalAborted := AbortedAfterAbort(controller.platform, old(controller.aborted)), aborts := old(aborts) + 1)
    {
      var ignored := controller.Abort();
      aborts := aborts + 1;
    }

    /** The timer expires: a cleared timer does nothing. */
    method Fire()
      modifies this, controller
      ensures State() == Next(controller.platform, old(State()), TimerFires)
    {
      if timerPending {
        AbortController();
        timerAborts := timerAborts + 1;
        timerPending := false;
      }
    }

    /** The wrapped request resolves: clear the timer, then pass the value on. */
    method Resolve(v: Value)
      modifies this
      ensures State() == Next(controller.platform, old(State()), InnerResolves(v))
    {
      if outcome.Unsettled? {
        timerPending := false;
        outcome := Fulfilled(v);
      }
    }

    /** The wrapped request rejects: the rejection passes on; the timer is left alone. */
    method Reject(r: Value)
      modifies this
      ensures State() == Next(controller.platform, old(State()), InnerRejects(r))
    {
      if outcome.Unsettled? {
        outcome := Rejected(r);
      }
    }

    /** `abortable.abort()`: abort the controller, then clear the timer. */
    method Abort()
      modifies this, controller
      ensures State() == Next(controller.platform, old(State()), CallerAborts)
    {
      AbortController();
      timerPending := false;
    }
  }

  /** One call of withAbort(inner), run until the wrapped request settles. */
  function AbortCall(inner: Request, url: string, args: Args, w: World): Step {
    match args
    case Omitted =>
      // `{ timeoutMs = 5000, ...params }` has no default: destructuring undefined throws
      Step([], Threw(ReadOfNullish("timeoutMs")), w)
    case Passed(m) =>
      var id := w.nextId;
      var opts := AbortOptions(m, SignalValue(w.platform, id));
      var s := inner(url, Passed(opts), w.(nextId := id + 1));
      var started := [NewController(id), StartTimer(id, TimeoutOf(m)), Invoke(AbortLayer, url, Passed(opts))] + s.effects;
      match s.call
      case Threw(e) => Step(started, Threw(e), s.world)
      case Returned(pending) =>
        var settled := Settle(w.platform, Started(), pending.outcome);
        Step(started + (if settled.timerPending then [] else [ClearTimer(id)]),
             Returned(Pending(settled.outcome, Some(AbortHandle(id)))),
             s.world)
  }

  function WithAbort(inner: Request): Request {
    (url: string, args: Args, w: World) => AbortCall(inner, url, args, w)
  }

  /**
   * A call with options makes the next controller, starts its timer, and
   * calls the wrapped request once with the signal; the outcome passes
   * through unchanged, the timer is cleared exactly on success, and the
   * result's `.abort` is this call's.
   */
  lemma AbortCallShape(inner: Request, url: string, m: Options, w: World)
    ensures var id := w.nextId;
      var opts := AbortOptions(m, SignalValue(w.platform, id));
      var s := inner(url, Passed(opts), w.(nextId := id + 1));
      var r := AbortCall(inner, url, Passed(m), w);
      && r.effects[..3 + |s.effects|] == [NewController(id), StartTimer(id, TimeoutOf(m)), Invoke(AbortLayer, url, Passed(opts))] + s.effects
      && r.world == s.world
      && (s.call.Threw? ==> r.call == s.call && |r.effects| == 3 + |s.effects|)
      && (s.call.Returned? ==>
            && r.call == Returned(Pending(s.call.pending.outcome, Some(AbortHandle(id))))
            && (s.call.pending.outcome.Fulfilled? ==> r.effects == [NewController(id), StartTimer(id, TimeoutOf(m)), Invoke(AbortLayer, url, Passed(opts))] + s.effects + [ClearTimer(id)])
            && (!s.call.pending.outcome.Fulfilled? ==> |r.effects| == 3 + |s.effects|))
  {
  }

  /** The whole step of a call whose wrapped request returns a promise. */
  lemma AbortCallReturns(inner: Request, url: string, m: Options, w: World)
    requires inner(url, Passed(AbortOptions(m, SignalValue(w.platform, w.nextId))), w.(nextId := w.nextId + 1)).call.Returned?
    ensures var id := w.nextId;
      var opts := AbortOptions(m, SignalValue(w.platform, id));
      var s := inner(url, Passed(opts), w.(nextId := id + 1));
      var o := s.call.pending.outcome;
      AbortCall(inner, url, Passed(m), w) ==
        Step([NewController(id), StartTimer(id, TimeoutOf(m)), Invoke(AbortLayer, url, Passed(opts))] + s.effects
             + (if o.Fulfilled? then [ClearTimer(id)] else []),
             Returned(Pending(o, Some(AbortHandle(id)))), s.world)
  {
    var s := inner(url, Passed(AbortOptions(m, SignalValue(w.platform, w.nextId))), w.(nextId := w.nextId + 1));
    match s.call.pending.outcome
    case Fulfilled(v) => SettlementEffects(w.platform, v, v);
    case Rejected(r) => SettlementEffects(w.platform, r, r);
    case Unsettled => SettlementEffects(w.platform, Undefined, Undefined);
  }

  /** The step of a call whose wrapped request is a single effect that returns a promise without `.abort`. */
  lemma AbortCallOneEffect(inner: Request, url: string, m: Options, w: World, f: Effect, o: Settled, after: World)
    requires inner(url, Passed(AbortOptions(m, SignalValue(w.platform, w.nextId))), w.(nextId := w.nextId + 1)) ==
      Step([f], Returned(Pending(o, None)), after)
    ensures var id := w.nextId;
      var opts := AbortOptions(m, SignalValue(w.platform, id));
      AbortCall(inner, url, Passed(m), w) ==
        Step([NewController(id), StartTimer(id, TimeoutOf(m)), Invoke(AbortLayer, url, Passed(opts)), f]
             + (if o.Fulfilled? then [ClearTimer(id)] else []),
             Returned(Pending(o, Some(AbortHandle(id)))), after)
  {
    var id := w.nextId;
    AbortCallReturns(inner, url, m, w);
    AppendOne([NewController(id), StartTimer(id, TimeoutOf(m)), Invoke(AbortLayer, url, Passed(AbortOptions(m, SignalValue(w.platform, id))))],
              f, if o.Fulfilled? then [ClearTimer(id)] else []);
  }

  lemma AppendOne(prefix: seq<Effect>, f: Effect, tail: seq<Effect>)
    requires |prefix| == 3
    ensures prefix + [f] + tail == [prefix[0], prefix[1], prefix[2], f] + tail
  {
  }

  /** Without an options object the call throws before anything happens. */
  lemma OptionsRequired(inner: Request, url: string, w: World)
    ensures AbortCall(inner, url, Omitted, w).call.Threw?
    ensures AbortCall(inner, url, Omitted, w).effects == []
  {
  }
}
