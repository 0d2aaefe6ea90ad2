/**
 * withShortcuts: verb shortcuts next to the request function. `post`,
 * `put` and `patch` take `(url, data, params)`, `del` takes
 * `(url, params)`; each calls the request with the params, the method set
 * to the verb, and, when data is truthy, a `body` of `JSON.stringify(data)`.
 */
module WithShortcuts {
  import opened Values
  import opened Traces

  /** `{ ...params, method, ...(data && { body: JSON.stringify(data) }) }`. */
  function ShortcutOptions(verb: string, data: Value, params: Value): (r: Options)
    ensures r.Keys == Spread(params).Keys + {"method"} + (if Truthy(data) then {"body"} else {})
    ensures r["method"] == Str(verb)
    ensures Truthy(data) ==> r["body"] == Json(data)
    ensures forall k :: k in Spread(params) && k != "method" && (k != "body" || !Truthy(data)) ==>
              r[k] == Spread(params)[k]
  {
    var base := SetKey(Spread(params), "method", Str(verb));
    if Truthy(data) then SetKey(base, "body", Json(data)) else base
  }

  /** The request function with its shortcuts. */
  datatype Client = Client(request: Request) {
    function Call(url: string, args: Args, w: World): Step {
      request(url, args, w)
    }

    function Shortcut(url: string, verb: string, data: Value, params: Value, w: World): (s: Step)
      ensures s.effects == [Invoke(ShortcutLayer, url, Passed(ShortcutOptions(verb, data, params)))]
                           + request(url, Passed(ShortcutOptions(verb, data, params)), w).effects
      ensures s.call == request(url, Passed(ShortcutOptions(verb, data, params)), w).call
      ensures s.world == request(url, Passed(ShortcutOptions(verb, data, params)), w).world
    {
      Forward(request, ShortcutLayer, url, ShortcutOptions(verb, data, params), w)
    }

    function Post(url: string, data: Value, params: Value, w: World): Step {
      Shortcut(url, "POST", data, params, w)
    }

    function Put(url: string, data: Value, params: Value, w: World): Step {
      Shortcut(url, "PUT", data, params, w)
    }

    function Patch(url: string, data: Value, params: Value, w: World): Step {
      Shortcut(url, "PATCH", data, params, w)
    }

    function Del(url: string, params: Value, w: World): Step {
      Shortcut(url, "DELETE", Null, params, w)
    }
  }

  function WithShortcuts(r: Request): Client {
    Client(r)
  }

  /** The request itself is kept: calling the client is calling it. */
  lemma CallIsRequest(r: Request, url: string, args: Args, w: World)
    ensures WithShortcuts(r).Call(url, args, w) == r(url, args, w)
  {
  }

  /**
   * Each shortcut issues one call with its verb as method, whatever method
   * the params named, and the data as JSON body when the data is truthy.
   */
  lemma ShortcutsSetVerb(r: Request, url: string, data: Value, params: Value, w: World)
    ensures var c := WithShortcuts(r);
      && c.Post(url, data, params, w).effects[0] == Invoke(ShortcutLayer, url, Passed(ShortcutOptions("POST", data, params)))
      && c.Put(url, data, params, w).effects[0] == Invoke(ShortcutLayer, url, Passed(ShortcutOptions("PUT", data, params)))
      && c.Patch(url, data, params, w).effects[0] == Invoke(ShortcutLayer, url, Passed(ShortcutOptions("PATCH", data, params)))
      && c.Del(url, params, w).effects[0] == Invoke(ShortcutLayer, url, Passed(ShortcutOptions("DELETE", Null, params)))
    ensures forall verb :: verb in {"POST", "PUT", "PATCH", "DELETE"} ==> ShortcutOptions(verb, data, params)["method"] == Str(verb)
  {
  }

  /** `del` never sets a body: a `body` reaches the request only if the params had one. */
  lemma DelKeepsParamsBody(params: Value)
    ensures "body" in ShortcutOptions("DELETE", Null, params) <==> "body" in Spread(params)
    ensures "body" in Spread(params) ==> ShortcutOptions("DELETE", Null, params)["body"] == Spread(params)["body"]
  {
  }

  /** A falsy payload leaves the params' own body in place; a truthy one replaces it. */
  lemma BodyFromData(verb: string, data: Value, params: Value)
    ensures Truthy(data) ==> ShortcutOptions(verb, data, params)["body"] == Json(data)
    ensures !Truthy(data) ==> ("body" in ShortcutOptions(verb, data, params) <==> "body" in Spread(params))
  {
  }
}
