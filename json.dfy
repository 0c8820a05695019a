/**
 * JSON values as `express.json()` hands them to a route, and the few
 * JavaScript operations the routes apply to them.
 */
module Json {
  import opened Wrappers

  /** A parsed JSON value. Numbers are exact reals; there is no floating point. */
  datatype Value =
    | Null
    | Bool(b: bool)
    | Num(n: real)
    | Str(s: string)
    | Arr(items: seq<Value>)
    | Obj(members: seq<(string, Value)>)

  predicate DistinctKeys(members: seq<(string, Value)>)
  {
    forall i, j :: 0 <= i < j < |members| ==> members[i].0 != members[j].0
  }

  /** A request body: the members of a JSON object in JavaScript property order, no key twice. */
  type Body = members: seq<(string, Value)> | DistinctKeys(members)

  /** `body[key]`: the member's value, or None for `undefined`. */
  function Get(body: seq<(string, Value)>, key: string): Option<Value>
  {
    if |body| == 0 then None
    else if body[0].0 == key then Some(body[0].1)
    else Get(body[1..], key)
  }

  /** A key is undefined exactly when no member has it; otherwise its value is its member's. */
  lemma {:induction false} GetSpec(body: seq<(string, Value)>, key: string)
    ensures Get(body, key).None? <==> forall i :: 0 <= i < |body| ==> body[i].0 != key
    ensures Get(body, key).Some? ==> (key, Get(body, key).value) in body
    ensures DistinctKeys(body) ==> forall v :: (key, v) in body ==> Get(body, key) == Some(v)
  {
    if |body| > 0 && body[0].0 != key {
      GetSpec(body[1..], key);
      assert forall p :: p in body[1..] ==> p in body;
      assert forall i :: 1 <= i < |body| ==> body[i] == body[1..][i - 1];
      if DistinctKeys(body) {
        assert DistinctKeys(body[1..]) by {
          forall i, j | 0 <= i < j < |body[1..]| ensures body[1..][i].0 != body[1..][j].0 {
            assert body[1..][i] == body[i + 1] && body[1..][j] == body[j + 1];
          }
        }
        forall v | (key, v) in body ensures Get(body, key) == Some(v) {
          assert (key, v) in body[1..];
        }
      }
    }
  }

  /** JavaScript truthiness of a possibly `undefined` value, as in `!email`. */
  predicate Truthy(v: Option<Value>)
  {
    match v
    case None => false
    case Some(Null) => false
    case Some(Bool(b)) => b
    case Some(Num(n)) => n != 0.0
    case Some(Str(s)) => s != ""
    case Some(Arr(_)) => true
    case Some(Obj(_)) => true
  }
}
