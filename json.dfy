/**
  The JSON document tree the controller walks, and the accessors it uses on it.
  JNull stands for a null reference: every accessor applied to it throws, exactly
  as a member access on a null JsonData does. An object keeps its members in
  document order, so "the i-th element" of an object is its i-th member's value.
*/
module Json {
  import opened Wrappers

  datatype Json =
    | JNull
    | JBool(b: bool)
    | JNumber(n: real)
    | JString(s: string)
    | JArray(items: seq<Json>)
    | JObject(members: seq<(string, Json)>)

  /** The result of an access that can throw. `:-` propagates the exception. */
  datatype Try<+T> = Ok(value: T) | Throws {
    predicate IsFailure() {
      Throws?
    }

    function PropagateFailure<U>(): Try<U>
      requires Throws?
    {
      Throws
    }

    function Extract(): T
      requires Ok?
    {
      value
    }
  }

  /** The value stored under `key`, the first member with that key. */
  function Find(members: seq<(string, Json)>, key: string): (r: Option<Json>)
    ensures r.None? <==> forall i :: 0 <= i < |members| ==> members[i].0 != key
    ensures r.Some? ==> exists i :: 0 <= i < |members| && members[i] == (key, r.value)
  {
    if |members| == 0 then None
    else if members[0].0 == key then Some(members[0].1)
    else Find(members[1..], key)
  }

  /** No member before index `i` has the key `key`. */
  predicate FirstFrom(members: seq<(string, Json)>, key: string, i: int)
    requires 0 <= i <= |members|
  {
    forall j :: 0 <= j < i ==> members[j].0 != key
  }

  /** When keys repeat, Find gives the value of the first member with the key. */
  lemma {:induction false} FindGivesFirst(members: seq<(string, Json)>, key: string, i: nat)
    requires i < |members| && members[i].0 == key && FirstFrom(members, key, i)
    ensures Find(members, key) == Some(members[i].1)
  {
    if i > 0 {
      assert members[0].0 != key;
      assert members[1..][i - 1] == members[i];
      FindGivesFirst(members[1..], key, i - 1);
    }
  }

  /** `j.ContainsKey(key)`: only an object has keys; anything else throws. */
  function ContainsKey(j: Json, key: string): Try<bool> {
    if j.JObject? then Ok(Find(j.members, key).Some?) else Throws
  }

  /** `j[key]`: throws on a non-object and on a missing key. */
  function Get(j: Json, key: string): Try<Json> {
    if !j.JObject? then Throws
    else match Find(j.members, key)
      case Some(v) => Ok(v)
      case None => Throws
  }

  /** `j.Count`: the length of an array or the number of members of an object. */
  function Count(j: Json): Try<nat> {
    match j
    case JArray(items) => Ok(|items|)
    case JObject(members) => Ok(|members|)
    case _ => Throws
  }

  /** `j[i]`: the i-th element of an array or the i-th member's value; out of range throws. */
  function At(j: Json, i: nat): Try<Json> {
    match j
    case JArray(items) => if i < |items| then Ok(items[i]) else Throws
    case JObject(members) => if i < |members| then Ok(members[i].1) else Throws
    case _ => Throws
  }

  /**
    `j.ToString()`: a string is itself, a boolean "True" or "False", a number is
    formatted by `numberText`, an array or object gives its type name.
  */
  function ToText(j: Json, numberText: real -> string): Try<string> {
    match j
    case JNull => Throws
    case JBool(b) => Ok(if b then "True" else "False")
    case JNumber(n) => Ok(numberText(n))
    case JString(s) => Ok(s)
    case JArray(_) => Ok("JsonData array")
    case JObject(_) => Ok("JsonData object")
  }

  /** `(float) j`: only a number converts; anything else throws. */
  function ToFloat(j: Json): Try<real> {
    if j.JNumber? then Ok(j.n) else Throws
  }
}
