/**
 * Decoded JSON values as the Python SDK receives them from its JSON decoder:
 * `None` for null, and a `dict` for an object. A dict is kept as its list of
 * members in insertion order, because Python iterates a dict over its keys in
 * that order.
 */
module JsonValues {
  import opened Wrappers

  datatype Json =
    | JNull
    | JBool(b: bool)
    | JNumber(n: real)
    | JString(s: string)
    | JArray(items: seq<Json>)
    | JObject(members: Dict)

  datatype Member = Member(key: string, value: Json)

  /** A Python dict of decoded JSON: its members in insertion order. */
  type Dict = seq<Member>

  /** The TypeError Python raises when a `for` loop is given a value it cannot iterate. */
  datatype TypeError = NotIterable(value: Json)

  /** `d.get(key)`: the value of the member with that key, or None. */
  function Get(d: Dict, key: string): (r: Option<Json>) {
    if d == [] then None
    else if d[0].key == key then Some(d[0].value)
    else Get(d[1..], key)
  }

  /** A lookup misses exactly when no member has the key, and otherwise finds a member's value. */
  lemma {:induction false} GetFindsMember(d: Dict, key: string)
    ensures Get(d, key).None? <==> forall m :: m in d ==> m.key != key
    ensures Get(d, key).Some? ==> Member(key, Get(d, key).value) in d
  {
    if d != [] && d[0].key != key {
      GetFindsMember(d[1..], key);
      assert forall m :: m in d <==> m == d[0] || m in d[1..];
    }
  }

  /** `d.get(key, default)`. */
  function GetOr(d: Dict, key: string, default: Json): (r: Json)
    ensures (forall m :: m in d ==> m.key != key) ==> r == default
    ensures (exists m :: m in d && m.key == key) ==> Member(key, r) in d
  {
    GetFindsMember(d, key);
    match Get(d, key)
    case None => default
    case Some(v) => v
  }

  /** A member whose key differs is invisible to a lookup, wherever it stands. */
  lemma {:induction false} GetSkipsOtherMember(front: Dict, m: Member, back: Dict, key: string)
    requires m.key != key
    ensures Get(front + [m] + back, key) == Get(front + back, key)
  {
    if front == [] {
      assert front + [m] + back == [m] + back && front + back == back;
      assert ([m] + back)[0] == m && ([m] + back)[1..] == back;
    } else {
      assert (front + [m] + back)[0] == front[0];
      assert (front + [m] + back)[1..] == front[1..] + [m] + back;
      assert (front + back)[1..] == front[1..] + back;
      GetSkipsOtherMember(front[1..], m, back, key);
    }
  }

  /**
   * Python's iteration protocol on a decoded JSON value: a list yields its
   * elements, a string its one-character strings, a dict its keys; null,
   * booleans and numbers are not iterable.
   */
  function Iterate(v: Json): (r: Result<seq<Json>, TypeError>)
    ensures r.Failure? <==> v.JNull? || v.JBool? || v.JNumber?
    ensures r.Failure? ==> r.error == NotIterable(v)
    ensures v.JArray? ==> r == Success(v.items)
    ensures v.JString? ==>
      r.Success? && |r.value| == |v.s| &&
      forall i :: 0 <= i < |v.s| ==> r.value[i] == JString([v.s[i]])
    ensures v.JObject? ==>
      r.Success? && |r.value| == |v.members| &&
      forall i :: 0 <= i < |v.members| ==> r.value[i] == JString(v.members[i].key)
  {
    match v
    case JArray(items) => Success(items)
    case JString(s) => Success(seq(|s|, i requires 0 <= i < |s| => JString([s[i]])))
    case JObject(members) => Success(seq(|members|, i requires 0 <= i < |members| => JString(members[i].key)))
    case _ => Failure(NotIterable(v))
  }
}
