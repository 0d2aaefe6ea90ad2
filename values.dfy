/**
 * JavaScript values as the middlewares see them: the option bags they
 * destructure and spread, the responses they inspect and the errors they
 * throw. Only the operations the middlewares use are modelled: property
 * lookup, truthiness, default parameters, object spread, template-literal
 * conversion and `toLowerCase`.
 */
module Values {

  datatype Option<+T> = None | Some(value: T)

  datatype ErrorKind = PlainError | TypeError

  datatype Value =
    | Undefined
    | Null
    | Bool(b: bool)
    | Num(n: int)
    | Str(s: string)
    | Obj(fields: map<string, Value>)
      /** a function supplied by the caller (the bgSync callback, withAuthClientError, ...) */
    | Func(id: nat)
      /** the AbortSignal of the platform controller with this id */
    | Signal(controller: nat)
      /** the text `JSON.stringify(data)` produces */
    | Json(data: Value)
      /** a fetch Response object */
    | Resp(status: int, statusText: string)
      /** an Error (or TypeError) object; `response` is the attached response or undefined */
    | Exc(kind: ErrorKind, message: string, response: Value)

  /** An object used as an option bag; a key missing from the map reads as undefined. */
  type Options = map<string, Value>

  /** The (possibly omitted) options argument of a request function. */
  datatype Args = Omitted | Passed(opts: Options)

  /** The options bag after a `= {}` parameter default. */
  function OptionsOf(a: Args): (m: Options)
    ensures a.Omitted? ==> m == map[]
    ensures a.Passed? ==> m == a.opts
  {
    match a
    case Omitted => map[]
    case Passed(m) => m
  }

  /** `m[k]` on an object: a missing key reads as undefined. */
  function Get(m: Options, k: string): (v: Value)
    ensures k !in m ==> v == Undefined
    ensures k in m ==> v == m[k]
  {
    if k in m then m[k] else Undefined
  }

  /** A destructuring default `{ k = d }`: it applies exactly when the value is undefined. */
  function Default(v: Value, d: Value): (r: Value)
    ensures v == Undefined ==> r == d
    ensures v != Undefined ==> r == v
    ensures r == Undefined <==> v == Undefined && d == Undefined
  {
    if v == Undefined then d else v
  }

  /** JavaScript truthiness (integers only: there is no NaN here). */
  predicate Truthy(v: Value) {
    match v
    case Undefined => false
    case Null => false
    case Bool(b) => b
    case Num(n) => n != 0
    case Str(s) => s != ""
    case _ => true
  }

  /**
   * The own enumerable keys that `{ ...v }` copies: an object's fields, a
   * string's indices "0", "1", ... with its one-character strings, and
   * nothing for undefined, null and the other values used here.
   */
  function Spread(v: Value): (m: Options)
    ensures v.Obj? ==> m == v.fields
    ensures v.Str? ==> IndexSpread(v.s, m)
    ensures !v.Obj? && !v.Str? ==> m == map[]
  {
    match v
    case Obj(f) => f
    case Str(s) => StringSpread(s)
    case _ => map[]
  }

  /** m holds one key per index of s, the decimal text of the index, with the one-character string there. */
  ghost predicate IndexSpread(s: string, m: Options) {
    IndexValues(s, m) && IndexKeys(s, m)
  }

  /** Every index of s is a key of m, holding the character there. */
  ghost predicate IndexValues(s: string, m: Options) {
    forall i {:trigger s[i]} :: 0 <= i < |s| ==> Digits(i) in m && m[Digits(i)] == Str([s[i]])
  }

  /** Every key of m is the text of an index of s. */
  ghost predicate IndexKeys(s: string, m: Options) {
    forall k :: k in m ==> exists i :: 0 <= i < |s| && k == Digits(i)
  }

  /** `{ ..."text" }`: one key per index. */
  function StringSpread(s: string): (m: Options)
    ensures IndexSpread(s, m)
    decreases |s|
  {
    if s == [] then map[]
    else
      var n := |s| - 1;
      var rest := StringSpread(s[..n]);
      StringSpreadStep(s[..n], s[n], rest);
      assert s == s[..n] + [s[n]];
      rest[Digits(n) := Str([s[n]])]
  }

  /** Adding the last index to the spread of the characters before it. */
  lemma StringSpreadStep(init: string, c: char, rest: Options)
    requires IndexSpread(init, rest)
    ensures IndexSpread(init + [c], rest[Digits(|init|) := Str([c])])
  {
    StringSpreadValues(init, c, rest);
    StringSpreadKeys(init, c, rest);
  }

  lemma StringSpreadValues(init: string, c: char, rest: Options)
    requires IndexSpread(init, rest)
    ensures IndexValues(init + [c], rest[Digits(|init|) := Str([c])])
  {
    var n := |init|;
    var s, m := init + [c], rest[Digits(n) := Str([c])];
    forall i | 0 <= i < |s| ensures Digits(i) in m && m[Digits(i)] == Str([s[i]]) {
      if i < n {
        assert s[i] == init[i];
        if Digits(i) == Digits(n) {
          DigitsInjective(i, n);
        }
      }
    }
  }

  lemma StringSpreadKeys(init: string, c: char, rest: Options)
    requires IndexSpread(init, rest)
    ensures IndexKeys(init + [c], rest[Digits(|init|) := Str([c])])
  {
    var n := |init|;
    var s, m := init + [c], rest[Digits(n) := Str([c])];
    forall k | k in m ensures exists i :: 0 <= i < |s| && k == Digits(i) {
      if k != Digits(n) {
        var i :| 0 <= i < n && k == Digits(i);
        assert 0 <= i < |s| && k == Digits(i);
      } else {
        assert 0 <= n < |s| && k == Digits(n);
      }
    }
  }

  /** `{ ..."ab" }` is `{ "0": "a", "1": "b" }`. */
  lemma SpreadStringExample()
    ensures Spread(Str("ab")) == map["0" := Str("a"), "1" := Str("b")]
  {
    var m := Spread(Str("ab"));
    assert Digits(0) == "0" && Digits(1) == "1";
    assert "ab"[0] == 'a' && "ab"[1] == 'b';
    forall k | k in m ensures k == "0" || k == "1" {
      var i :| 0 <= i < 2 && k == Digits(i);
    }
    assert m.Keys == {"0", "1"};
  }

  /** `{ ...base, [name]: value }`: every key of base kept, `name` added or overridden. */
  function SetKey(base: Options, name: string, value: Value): (r: Options)
    ensures r.Keys == base.Keys + {name}
    ensures r[name] == value
    ensures forall k :: k in base && k != name ==> r[k] == base[k]
  {
    base[name := value]
  }

  /**
   * `{ ...params, headers: { ...params.headers, [name]: value } }`: the
   * headers of `params` with one header added or overridden, every other
   * option unchanged.
   */
  function WithHeader(params: Options, name: string, value: Value): (r: Options)
    ensures r.Keys == params.Keys + {"headers"}
    ensures forall k :: k in params && k != "headers" ==> r[k] == params[k]
    ensures r["headers"].Obj?
    ensures r["headers"].fields.Keys == Spread(Get(params, "headers")).Keys + {name}
    ensures r["headers"].fields[name] == value
    ensures forall h :: h in Spread(Get(params, "headers")) && h != name ==>
              r["headers"].fields[h] == Spread(Get(params, "headers"))[h]
  {
    SetKey(params, "headers", Obj(SetKey(Spread(Get(params, "headers")), name, value)))
  }

  /** Property access `v.name`; None when it throws (v is undefined or null). */
  function Prop(v: Value, name: string): (r: Option<Value>)
    ensures r.None? <==> v.Undefined? || v.Null?
    ensures v.Obj? ==> r == Some(Get(v.fields, name))
  {
    match v
    case Undefined => None
    case Null => None
    case Obj(f) => Some(Get(f, name))
    case Resp(status, text) =>
      Some(if name == "status" then Num(status) else if name == "statusText" then Str(text) else Undefined)
    case Exc(_, message, response) =>
      Some(if name == "message" then Str(message) else if name == "response" then response else Undefined)
    case _ => Some(Undefined)
  }

  /** The TypeError thrown by reading a property of undefined or null. */
  function ReadOfNullish(name: string): Value {
    Exc(TypeError, "Cannot read properties of undefined (reading '" + name + "')", Undefined)
  }

  /** The TypeError thrown by calling something that is not a function. */
  function NotAFunction(name: string): Value {
    Exc(TypeError, name + " is not a function", Undefined)
  }

  function DigitChar(d: nat): (c: char)
    requires d < 10
    ensures '0' <= c <= '9'
  {
    (48 + d) as char
  }

  /** Decimal digits of a natural number. */
  function Digits(n: nat): (s: string)
    ensures |s| >= 1
    decreases n
  {
    if n < 10 then [DigitChar(n)] else Digits(n / 10) + [DigitChar(n % 10)]
  }

  /** Different numbers have different decimal texts. */
  lemma {:induction false} DigitsInjective(a: nat, b: nat)
    requires Digits(a) == Digits(b)
    ensures a == b
    decreases a
  {
    if a >= 10 && b >= 10 {
      var da, db := Digits(a), Digits(b);
      assert da[..|da| - 1] == Digits(a / 10);
      assert db[..|db| - 1] == Digits(b / 10);
      DigitsInjective(a / 10, b / 10);
      assert DigitChar(a % 10) == DigitChar(b % 10);
    }
  }

  /** `${v}`: the string a template literal makes of a value. */
  function ToText(v: Value): string {
    match v
    case Undefined => "undefined"
    case Null => "null"
    case Bool(b) => if b then "true" else "false"
    case Num(n) => if n < 0 then "-" + Digits(-n) else Digits(n)
    case Str(s) => s
    case Obj(_) => "[object Object]"
    case Func(_) => "function"
    case Signal(_) => "[object AbortSignal]"
    case Json(_) => "[json]"
    case Resp(_, _) => "[object Response]"
    case Exc(kind, message, _) => (if kind == TypeError then "TypeError: " else "Error: ") + message
  }

  function LowerChar(c: char): char {
    if 'A' <= c <= 'Z' then (c as int + 32) as char else c
  }

  /** `s.toLowerCase()` on ASCII letters. */
  function Lower(s: string): (r: string)
    ensures |r| == |s|
    ensures forall i :: 0 <= i < |s| ==> r[i] == LowerChar(s[i])
  {
    seq(|s|, i requires 0 <= i < |s| => LowerChar(s[i]))
  }

  /** `part` starts at index i of s. */
  predicate OccursAt(s: string, part: string, i: int) {
    0 <= i <= |s| - |part| && s[i..i + |part|] == part
  }

  /** `s.includes(part)`. */
  ghost predicate Mentions(s: string, part: string) {
    exists i :: OccursAt(s, part, i)
  }

  lemma OccursBetween(head: string, part: string, tail: string)
    ensures OccursAt(head + part + tail, part, |head|)
    ensures Mentions(head + part + tail, part)
  {
    var s := head + part + tail;
    assert s[|head|..|head| + |part|] == part;
    assert OccursAt(s, part, |head|);
  }
}
