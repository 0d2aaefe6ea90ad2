/**
 * withAuthClient: without an `authClient` option the call goes straight
 * through. With one, a token is requested (`authClient.getTokenSilently()`,
 * a TypeError when the client has no such method; its promise is handed
 * to the `withAuthClientError` option), and once
 * that resolves the request is performed with an
 * `Authorization: BEARER <id_token>` header. The two auth options are not
 * passed on.
 */
module WithAuthClient {
  import opened Values
  import opened Traces

  function AuthParams(m: Options): (params: Options)
    ensures params.Keys == m.Keys - {"authClient", "withAuthClientError"}
    ensures forall k :: k in params ==> params[k] == m[k]
  {
    m - {"authClient", "withAuthClientError"}
  }

  /** `BEARER ${id_token}`. */
  function Bearer(token: Value): (v: Value)
    ensures v.Str? && |v.s| >= 7 && v.s[..7] == "BEARER " && v.s[7..] == ToText(token)
  {
    Str("BEARER " + ToText(token))
  }

  /** The options of the authorised request. */
  function AuthorisedOptions(params: Options, token: Value): (r: Options)
    ensures r.Keys == params.Keys + {"headers"}
    ensures forall k :: k in params && k != "headers" ==> r[k] == params[k]
    ensures r["headers"].Obj? && "Authorization" in r["headers"].fields
    ensures r["headers"].fields["Authorization"] == Bearer(token)
    ensures forall h :: h in Spread(Get(params, "headers")) && h != "Authorization" ==>
              h in r["headers"].fields && r["headers"].fields[h] == Spread(Get(params, "headers"))[h]
  {
    WithHeader(params, "Authorization", Bearer(token))
  }

  /** A client whose `getTokenSilently` property is a function, so that `authClient.getTokenSilently()` can be called. */
  predicate HasTokenMethod(client: Value): (b: bool)
    ensures b ==> client.Obj? && Truthy(client)
  {
    var p := Prop(client, "getTokenSilently");
    p.Some? && p.value.Func?
  }

  /** One call of withAuthClient(inner). */
  function AuthCall(inner: Request, url: string, args: Args, w: World): Step {
    var m := OptionsOf(args);
    var params := AuthParams(m);
    if !Truthy(Get(m, "authClient")) then Forward(inner, AuthLayer, url, params, w)
    else if !HasTokenMethod(Get(m, "authClient")) then Step([], Threw(NotAFunction("authClient.getTokenSilently")), w)
    else
      var c := CallFn(Get(m, "withAuthClientError"), w);
      var fx := [TokenRequested] + c.effects;
      match c.answer
      case Throws(e) => Step(fx, Threw(e), c.world)
      case Returns(_) => Step(fx, Threw(NotAFunction("withAuthClientError(...).then")), c.world)
      case Hangs => Step(fx, Returned(Pending(Unsettled, None)), c.world)
      case Rejects(r) => Step(fx, Returned(Pending(Rejected(r), None)), c.world)
      case Resolves(v) =>
        match Prop(v, "id_token")
        case None => Step(fx, Returned(Pending(Rejected(ReadOfNullish("id_token")), None)), c.world)
        case Some(token) =>
          var f := Forward(inner, AuthLayer, url, AuthorisedOptions(params, token), c.world);
          Step(fx + f.effects, Returned(Pending(Adopt(f.call), None)), f.world)
  }

  function WithAuthClient(inner: Request): Request {
    (url: string, args: Args, w: World) => AuthCall(inner, url, args, w)
  }

  /** No client: one call of inner with the options minus the auth keys; its result unchanged. */
  lemma NoClientForwards(inner: Request, url: string, args: Args, w: World)
    requires !Truthy(Get(OptionsOf(args), "authClient"))
    ensures var params := AuthParams(OptionsOf(args));
      var s := inner(url, Passed(params), w);
      AuthCall(inner, url, args, w) == Step([Invoke(AuthLayer, url, Passed(params))] + s.effects, s.call, s.world)
  {
  }

  /**
   * With a client, a resolved token with an `id_token` leads to exactly
   * one call of inner, with the bearer header; the result follows that
   * call's promise and carries no `.abort`.
   */
  lemma TokenAuthorises(inner: Request, url: string, args: Args, w: World)
    requires HasTokenMethod(Get(OptionsOf(args), "authClient"))
    requires Get(OptionsOf(args), "withAuthClientError").Func?
    requires |w.answers| > 0 && w.answers[0].Resolves? && Prop(w.answers[0].value, "id_token").Some?
    ensures var m := OptionsOf(args);
      var token := Prop(w.answers[0].value, "id_token").value;
      var opts := AuthorisedOptions(AuthParams(m), token);
      var s := inner(url, Passed(opts), w.(answers := w.answers[1..]));
      AuthCall(inner, url, args, w) ==
        Step([TokenRequested, Called(Get(m, "withAuthClientError")), Invoke(AuthLayer, url, Passed(opts))] + s.effects,
             Returned(Pending(Adopt(s.call), None)), s.world)
  {
  }

  /** The same, for the promise alone: it follows the authorised call's and carries no `.abort`. */
  lemma TokenAuthorisesCall(inner: Request, url: string, args: Args, w: World)
    requires HasTokenMethod(Get(OptionsOf(args), "authClient"))
    requires Get(OptionsOf(args), "withAuthClientError").Func?
    requires |w.answers| > 0 && w.answers[0].Resolves? && Prop(w.answers[0].value, "id_token").Some?
    ensures var opts := AuthorisedOptions(AuthParams(OptionsOf(args)), Prop(w.answers[0].value, "id_token").value);
      AuthCall(inner, url, args, w).call == Returned(Pending(Adopt(inner(url, Passed(opts), w.(answers := w.answers[1..])).call), None))
  {
    TokenAuthorises(inner, url, args, w);
  }

  /**
   * With a client, the request is performed only when the token promise
   * resolves to a value with an `id_token` property; otherwise inner is
   * never called.
   */
  lemma NoTokenNoRequest(inner: Request, url: string, args: Args, w: World)
    requires HasTokenMethod(Get(OptionsOf(args), "authClient"))
    requires var c := CallFn(Get(OptionsOf(args), "withAuthClientError"), w);
      !(c.answer.Resolves? && Prop(c.answer.value, "id_token").Some?)
    ensures var r := AuthCall(inner, url, args, w);
      && IssuedBy(r.effects, AuthLayer) == 0
      && r.effects[0] == TokenRequested
      && (r.call.Returned? ==> r.call.pending.abort.None?)
  {
    var c := CallFn(Get(OptionsOf(args), "withAuthClientError"), w);
    var fx := [TokenRequested] + c.effects;
    IssuedByNone(fx, AuthLayer);
  }

  /** A withAuthClientError that is not a function makes the call throw, right after the token request. */
  lemma MissingErrorHandlerThrows(inner: Request, url: string, args: Args, w: World)
    requires HasTokenMethod(Get(OptionsOf(args), "authClient"))
    requires !Get(OptionsOf(args), "withAuthClientError").Func?
    ensures AuthCall(inner, url, args, w) == Step([TokenRequested], Threw(NotAFunction("callback")), w)
  {
  }

  /**
   * A truthy client without a callable `getTokenSilently` (`true`, `{}`,
   * ...) makes the call throw a TypeError before anything happens: no
   * token is requested and inner is never called.
   */
  lemma TokenMethodMissingThrows(inner: Request, url: string, args: Args, w: World)
    requires Truthy(Get(OptionsOf(args), "authClient"))
    requires !HasTokenMethod(Get(OptionsOf(args), "authClient"))
    ensures AuthCall(inner, url, args, w) == Step([], Threw(NotAFunction("authClient.getTokenSilently")), w)
  {
  }

  /** `authClient: true` and `authClient: {}` both throw, as a client would without the method. */
  lemma TokenMethodMissingExamples(inner: Request, url: string, ef: Value, w: World)
    ensures AuthCall(inner, url, Passed(map["authClient" := Bool(true), "withAuthClientError" := ef]), w).call
      == Threw(NotAFunction("authClient.getTokenSilently"))
    ensures AuthCall(inner, url, Passed(map["authClient" := Obj(map[]), "withAuthClientError" := ef]), w).call
      == Threw(NotAFunction("authClient.getTokenSilently"))
  {
    var m1 := map["authClient" := Bool(true), "withAuthClientError" := ef];
    assert Get(m1, "authClient") == Bool(true);
    var m2 := map["authClient" := Obj(map[]), "withAuthClientError" := ef];
    assert Get(m2, "authClient") == Obj(map[]);
  }
}
