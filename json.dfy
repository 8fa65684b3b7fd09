/** Python values as `json.loads` produces them, with the parts of Python's
    semantics the notification client relies on: truthiness, `dict.get`,
    iteration with `for`, and the exceptions those raise. */
module Json {

  datatype Option<+T> = None | Some(value: T)

  /** An outcome that is either a value or a raised exception; `:-` propagates
      the exception, as Python's unwinding does. */
  datatype Result<+T, +E> = Ok(value: T) | Err(error: E) {
    predicate IsFailure() { Err? }

    function PropagateFailure<U>(): Result<U, E>
      requires Err?
    {
      Err(error)
    }

    function Extract(): T
      requires Ok?
    {
      value
    }
  }

  /** The Python exceptions the decoder can raise. Only the messages the
      source writes itself are kept; those of the interpreter are not. */
  datatype PyError =
    | ValueError(message: string)
    | TypeError
    | AttributeError

  /** A JSON document as a Python value. `JNull` is Python's `None`; an object
      is a dict, kept in insertion order with distinct keys. */
  datatype Json =
    | JNull
    | JBool(b: bool)
    | JNum(n: real)
    | JStr(s: string)
    | JArray(items: seq<Json>)
    | JObject(members: seq<(string, Json)>)

  /** Python truthiness: `None`, `False`, zero and empty containers are false. */
  predicate Truthy(j: Json) {
    match j
    case JNull => false
    case JBool(b) => b
    case JNum(n) => n != 0.0
    case JStr(s) => s != ""
    case JArray(items) => items != []
    case JObject(members) => members != []
  }

  predicate HasKey(members: seq<(string, Json)>, key: string) {
    exists i :: 0 <= i < |members| && members[i].0 == key
  }

  /** `d.get(key, default)` on a dict. */
  function GetOr(members: seq<(string, Json)>, key: string, default: Json): (r: Json)
    ensures !HasKey(members, key) ==> r == default
    ensures HasKey(members, key) ==> exists i :: 0 <= i < |members| && members[i] == (key, r)
  {
    if members == [] then default
    else if members[0].0 == key then members[0].1
    else
      var r := GetOr(members[1..], key, default);
      assert HasKey(members, key) ==> HasKey(members[1..], key) by {
        if HasKey(members, key) {
          var i :| 0 <= i < |members| && members[i].0 == key;
          assert members[1..][i - 1].0 == key;
        }
      }
      assert HasKey(members, key) ==> exists i :: 0 <= i < |members| && members[i] == (key, r) by {
        if HasKey(members, key) {
          var i :| 0 <= i < |members[1..]| && members[1..][i] == (key, r);
          assert members[i + 1] == (key, r);
        }
      }
      r
  }

  /** `d.get(key)`: `None` when the key is absent. */
  function Get(members: seq<(string, Json)>, key: string): Json {
    GetOr(members, key, JNull)
  }

  /** A dict that carries the key `nplType`: what the decoder treats as a tagged value. */
  predicate IsTagged(j: Json) {
    j.JObject? && HasKey(j.members, "nplType")
  }

  /** The elements `for x in j` visits: a list's items, a dict's keys, a
      string's characters; any other value raises `TypeError`. */
  function Iterate(j: Json): (r: Result<seq<Json>, PyError>)
    ensures r.Err? <==> !(j.JArray? || j.JObject? || j.JStr?)
    ensures r.Err? ==> r.error == TypeError
    ensures j.JArray? ==> r == Ok(j.items)
    ensures j.JObject? ==>
              && r.Ok? && |r.value| == |j.members|
              && forall i :: 0 <= i < |j.members| ==> r.value[i] == JStr(j.members[i].0)
    ensures j.JStr? ==>
              && r.Ok? && |r.value| == |j.s|
              && forall i :: 0 <= i < |j.s| ==> r.value[i] == JStr([j.s[i]])
  {
    match j
    case JArray(items) => Ok(items)
    case JObject(members) => Ok(seq(|members|, i requires 0 <= i < |members| => JStr(members[i].0)))
    case JStr(s) => Ok(seq(|s|, i requires 0 <= i < |s| => JStr([s[i]])))
    case _ => Err(TypeError)
  }

  predicate EndsWith(s: string, suffix: string) {
    |suffix| <= |s| && s[|s| - |suffix|..] == suffix
  }
}
