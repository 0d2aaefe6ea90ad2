/**
 * getAbortController: a (signal, abort) pair built on the platform's
 * AbortController when there is one, or an inert stand-in when there is
 * not. The returned abort never throws: a failure of the native abort is
 * handed back as its return value.
 */
module AbortControllers {
  import opened Values

  /**
   * What `window.AbortController` is: missing, or a native controller whose
   * `abort()` either succeeds or throws the given value.
   */
  datatype Platform = Missing | Native(abortThrows: Option<Value>)

  /** The `signal` of the pair: `{}` without a platform controller. */
  function SignalValue(p: Platform, id: nat): (v: Value)
    ensures p.Missing? ==> v == Obj(map[])
    ensures p.Native? ==> v == Signal(id)
  {
    if p.Missing? then Obj(map[]) else Signal(id)
  }

  /** What the pair's `abort()` returns (it never throws). */
  function AbortResult(p: Platform): (r: Value)
    ensures p.Missing? ==> r == Undefined
    ensures p == Native(None) ==> r == Str("aborted")
    ensures p.Native? && p.abortThrows.Some? ==> r == p.abortThrows.value
  {
    match p
    case Missing => Undefined
    case Native(None) => Str("aborted")
    case Native(Some(e)) => e
  }

  /** `signal.aborted` of a native controller after `abort()`; it only turns true when the native abort succeeded. */
  function AbortedAfterAbort(p: Platform, wasAborted: bool): (now: bool)
    ensures now <==> wasAborted || p == Native(None)
  {
    wasAborted || p == Native(None)
  }

  /** One controller, as made by one call of getAbortController. */
  class Controller {
    const platform: Platform
    const id: nat
    /** `signal.aborted` of the native controller (unused without one). */
    var aborted: bool

    constructor (p: Platform, id: nat)
      ensures platform == p && this.id == id
      ensures !aborted && SignalAborted() != Bool(true)
    {
      platform := p;
      this.id := id;
      aborted := false;
    }

    function Signal(): Value {
      SignalValue(platform, id)
    }

    /** Reading `signal.aborted`: undefined on the `{}` stand-in. */
    function SignalAborted(): (v: Value)
      reads this
      ensures platform.Missing? ==> v == Undefined
      ensures platform.Native? ==> v == Bool(aborted)
    {
      if platform.Missing? then Undefined else Bool(aborted)
    }

    /** The pair's `abort`: a no-op without a platform controller, otherwise the native abort inside a try. */
    method Abort() returns (r: Value)
      modifies this
      ensures r == AbortResult(platform)
      ensures platform.Native? ==> aborted == AbortedAfterAbort(platform, old(aborted))
      ensures platform.Missing? ==> aborted == old(aborted)
      ensures platform == Native(None) ==> SignalAborted() == Bool(true)
      ensures platform.Missing? ==> SignalAborted() == Undefined
    {
      match platform
      case Missing =>
        r := Undefined;
      case Native(throws) =>
        match throws
        case Some(e) =>
          r := e;
        case None =>
          aborted := true;
          r := Str("aborted");
    }
  }

  /**
   * Two calls give independent pairs: aborting the first returns
   * AbortResult and never touches the second's signal, which stays not
   * aborted while the first's turns aborted exactly when the native abort
   * succeeds.
   */
  method IndependentPairs(p: Platform) returns (r: Value, first: Value, second: Value)
    ensures r == AbortResult(p)
    ensures second != Bool(true)
    ensures p.Native? ==> second == Bool(false)
    ensures p.Native? ==> (first == Bool(true) <==> p.abortThrows.None?)
    ensures p.Missing? ==> r == Undefined && first == Undefined && second == Undefined
  {
    var one := new Controller(p, 0);
    var two := new Controller(p, 1);
    r := one.Abort();
    first := one.SignalAborted();
    second := two.SignalAborted();
  }
}
