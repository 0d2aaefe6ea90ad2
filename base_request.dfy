/**
 * The base request: fill in the default method and JSON headers, call
 * fetch once, turn a status outside 2xx into a rejected Error carrying the
 * response, and parse the body as JSON, a body that does not parse giving
 * undefined.
 */
module BaseRequest {
  import opened Values
  import opened Traces

  const JsonType: Value := Str("application/json")

  /** The headers every request starts from. */
  const DefaultHeaders: Options := map["Accept" := JsonType, "Content-Type" := JsonType]

  /** The options handed to fetch: `{ method, ...options, headers: { ...DefaultHeaders, ...headers } }`. */
  function FetchOptions(m: Options): (r: Options)
    ensures r.Keys == m.Keys + {"method", "headers"}
    ensures r["method"] == (if Get(m, "method") == Undefined then Str("GET") else Get(m, "method"))
    ensures forall k :: k in m && k != "method" && k != "headers" ==> r[k] == m[k]
    ensures r["headers"].Obj?
    ensures r["headers"].fields.Keys == {"Accept", "Content-Type"} + Spread(Get(m, "headers")).Keys
    ensures forall h :: h in Spread(Get(m, "headers")) ==> r["headers"].fields[h] == Spread(Get(m, "headers"))[h]
    ensures forall h :: h in DefaultHeaders && h !in Spread(Get(m, "headers")) ==> r["headers"].fields[h] == JsonType
  {
    var verb := Default(Get(m, "method"), Str("GET"));
    var headers := Spread(Default(Get(m, "headers"), Obj(map[])));
    (m - {"method", "headers"})["method" := verb]["headers" := Obj(DefaultHeaders + headers)]
  }

  /** checkStatus: None when the response passes, otherwise the Error it throws. */
  function CheckStatus(status: int, statusText: string): (err: Option<Value>)
    ensures err.None? <==> 200 <= status < 300
    ensures err.Some? ==> err.value.Exc? && err.value.kind == PlainError
    ensures err.Some? ==> Prop(err.value, "message") == Some(Str(statusText))
    ensures err.Some? ==> Prop(err.value, "response") == Some(Resp(status, statusText))
  {
    if 200 <= status && status < 300 then None
    else Some(Exc(PlainError, statusText, Resp(status, statusText)))
  }

  /** parseJSON: `response.json()` with a failure swallowed into undefined. */
  function ParseJson(b: Body): (v: Value)
    ensures b.Malformed? ==> v == Undefined
    ensures b.JsonBody? ==> v == b.value
  {
    match b
    case JsonBody(v) => v
    case Malformed => Undefined
  }

  /** How the promise of `fetch(...).then(checkStatus).then(parseJSON)` ends. */
  function Outcome(reply: FetchReply): (o: Settled)
    ensures reply.Silent? ==> o == Unsettled
    ensures reply.Fails? ==> o == Rejected(reply.reason)
    ensures reply.Responds? && 200 <= reply.status < 300 ==> o == Fulfilled(ParseJson(reply.body))
    ensures reply.Responds? && !(200 <= reply.status < 300) ==>
              o == Rejected(CheckStatus(reply.status, reply.statusText).value)
  {
    match reply
    case Silent => Unsettled
    case Fails(e) => Rejected(e)
    case Responds(status, text, body) =>
      match CheckStatus(status, text)
      case Some(err) => Rejected(err)
      case None => Fulfilled(ParseJson(body))
  }

  function BaseCall(url: string, args: Args, w: World): Step {
    var opts := FetchOptions(OptionsOf(args));
    var (reply, w') := TakeFetch(w);
    Step([Fetch(url, opts)], Returned(Pending(Outcome(reply), None)), w')
  }

  /** The request function of this file. */
  const Base: Request := (url: string, args: Args, w: World) => BaseCall(url, args, w)

  /** fetch is called exactly once, with the defaulted options, and the result carries no `.abort`. */
  lemma FetchesOnce(url: string, args: Args, w: World)
    ensures Base(url, args, w).effects == [Fetch(url, FetchOptions(OptionsOf(args)))]
    ensures FetchCount(Base(url, args, w).effects) == 1
    ensures Base(url, args, w).call.Returned? && Base(url, args, w).call.pending.abort.None?
    ensures Base(url, args, w).call.pending.outcome == Outcome(TakeFetch(w).0)
  {
  }

  /**
   * The promise fulfils exactly for a 2xx response, rejects exactly for a
   * fetch failure or another status, and stays pending only when fetch
   * never answers.
   */
  lemma OutcomeCases(reply: FetchReply)
    ensures Outcome(reply).Fulfilled? <==> reply.Responds? && 200 <= reply.status < 300
    ensures Outcome(reply).Rejected? <==> reply.Fails? || (reply.Responds? && !(200 <= reply.status < 300))
    ensures Outcome(reply).Unsettled? <==> reply.Silent?
    ensures reply.Responds? && !(200 <= reply.status < 300) ==>
              Prop(Outcome(reply).reason, "response") == Some(Resp(reply.status, reply.statusText))
  {
  }

  /** A 2xx response whose body is not JSON fulfils with undefined; it never rejects. */
  lemma MalformedBodyFulfilsUndefined(status: int, statusText: string)
    requires 200 <= status < 300
    ensures Outcome(Responds(status, statusText, Malformed)) == Fulfilled(Undefined)
    ensures !Outcome(Responds(status, statusText, Malformed)).Rejected?
  {
  }

  /** Omitting the options is the same as passing `{}`. */
  lemma OmittedIsEmpty(url: string, w: World)
    ensures Base(url, Omitted, w) == Base(url, Passed(map[]), w)
  {
  }

  /** Applying the defaults to options that already went through them changes nothing. */
  lemma {:induction false} FetchOptionsIdempotent(m: Options)
    ensures FetchOptions(FetchOptions(m)) == FetchOptions(m)
  {
    var once := FetchOptions(m);
    var twice := FetchOptions(once);
    assert once["headers"] == Obj(DefaultHeaders + Spread(Default(Get(m, "headers"), Obj(map[]))));
    assert twice["headers"].fields == DefaultHeaders + once["headers"].fields;
    assert twice["headers"] == once["headers"];
    assert twice.Keys == once.Keys;
  }
}
