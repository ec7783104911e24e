/**
 * Python values the agent passes around: optional values and decoded JSON.
 *
 * `JNull` is both JSON `null` and Python `None`: `json.loads` maps one to the
 * other and `dict.get` returns `None` for a missing key, so the agent cannot
 * tell the two apart either.  Objects keep their keys in document order.
 */
module Values {

  datatype Option<T> = None | Some(value: T)

  /** A call that either returns a value or raises with a message. */
  datatype Result<T> = Success(value: T) | Failure(error: string)

  /** Python's `x or y` on optional values. */
  function OrElse<T>(x: Option<T>, y: Option<T>): Option<T>
  {
    if x.Some? then x else y
  }

  /** The first element `f` maps to a value, mapped: a loop that returns at its first hit. */
  function FirstSome<T, U>(xs: seq<T>, f: T -> Option<U>): (r: Option<U>)
    ensures r.Some? ==> exists i :: 0 <= i < |xs| && f(xs[i]) == r && forall j :: 0 <= j < i ==> f(xs[j]).None?
    ensures r.None? <==> forall i :: 0 <= i < |xs| ==> f(xs[i]).None?
  {
    if |xs| == 0 then None
    else if f(xs[0]).Some? then f(xs[0])
    else
      var r := FirstSome(xs[1..], f);
      assert forall i :: 0 < i < |xs| ==> xs[1..][i - 1] == xs[i];
      r
  }

  /** The element that is hit first decides the result. */
  lemma {:induction false} FirstSomeAt<T, U>(xs: seq<T>, f: T -> Option<U>, i: nat)
    requires i < |xs| && f(xs[i]).Some?
    requires forall j :: 0 <= j < i ==> f(xs[j]).None?
    ensures FirstSome(xs, f) == f(xs[i])
    decreases i
  {
    if i > 0 {
      FirstSomeAt(xs[1..], f, i - 1);
    }
  }

  /** Python's `(x or "")` for an optional string. */
  function OrEmpty(x: Option<string>): (r: string)
    ensures x.None? ==> r == ""
    ensures x.Some? ==> r == x.value
  {
    if x.Some? then x.value else ""
  }

  datatype Json =
    | JNull
    | JBool(b: bool)
    | JInt(i: int)
    | JFloat(repr: string, isZero: bool)
    | JStr(s: string)
    | JArr(items: seq<Json>)
    | JObj(fields: seq<(string, Json)>)
  {
    /** Python truthiness. */
    predicate Truthy()
    {
      match this
      case JNull => false
      case JBool(b) => b
      case JInt(i) => i != 0
      case JFloat(_, z) => !z
      case JStr(s) => s != []
      case JArr(items) => items != []
      case JObj(fields) => fields != []
    }

    /** Python's `key in obj` for a dict; false for every other value. */
    predicate Has(key: string)
    {
      JObj? && exists i :: 0 <= i < |fields| && fields[i].0 == key
    }

    /** Python's `obj.get(key)` on a dict: `None` when the key is absent. */
    function Get(key: string): (r: Json)
      requires JObj?
      ensures !Has(key) ==> r == JNull
    {
      FieldOf(fields, key)
    }

    /** Python's `obj.get(key, default)` on a dict. */
    function GetOr(key: string, default: Json): (r: Json)
      requires JObj?
      ensures !Has(key) ==> r == default
    {
      if Has(key) then Get(key) else default
    }

    /** Python's `obj.get(key) == text`. */
    predicate FieldIs(key: string, text: string)
    {
      JObj? && Get(key) == JStr(text)
    }
  }

  function FieldOf(fields: seq<(string, Json)>, key: string): (r: Json)
    ensures (forall i :: 0 <= i < |fields| ==> fields[i].0 != key) ==> r == JNull
    ensures (exists i :: 0 <= i < |fields| && fields[i].0 == key && fields[i].1 == r) || r == JNull
  {
    if |fields| == 0 then JNull
    else if fields[0].0 == key then fields[0].1
    else FieldOf(fields[1..], key)
  }

  /** Python's `a or b` on JSON values (the first truthy value, else the second). */
  function JOr(a: Json, b: Json): (r: Json)
    ensures r == a || r == b
    ensures r.Truthy() <==> a.Truthy() || b.Truthy()
  {
    if a.Truthy() then a else b
  }
}
