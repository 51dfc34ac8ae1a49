/**
 * Parsed JSON values, as `response.json()` hands them to a schema. An object keeps its
 * members in document order. An object that `JSON.parse` produces never repeats a key;
 * for such an object, looking a key up by its first occurrence is the JavaScript
 * property read.
 */
module Json {
  import opened Wrappers

  datatype Json =
    | JNull
    | JBool(b: bool)
    | JNum(n: real)
    | JStr(s: string)
    | JArr(items: seq<Json>)
    | JObj(members: seq<(string, Json)>)

  /** The value of the first member named `key`, or None when the key is absent. */
  function Lookup(members: seq<(string, Json)>, key: string): Option<Json>
  {
    if members == [] then None
    else if members[0].0 == key then Some(members[0].1)
    else Lookup(members[1..], key)
  }

  /** `value[key]` for a value that is an object; None (undefined) otherwise or when absent. */
  function Get(j: Json, key: string): Option<Json> {
    if j.JObj? then Lookup(j.members, key) else None
  }

  /** A key is found exactly when some member has it, and what is found is that member's value. */
  lemma {:induction false} LookupFound(members: seq<(string, Json)>, key: string)
    ensures Lookup(members, key).Some? <==> exists i :: 0 <= i < |members| && members[i].0 == key
    ensures Lookup(members, key).Some? ==> exists i :: 0 <= i < |members| && members[i] == (key, Lookup(members, key).value)
  {
    if members != [] && members[0].0 != key {
      LookupFound(members[1..], key);
      if Lookup(members, key).Some? {
        var i :| 0 <= i < |members[1..]| && members[1..][i] == (key, Lookup(members, key).value);
        assert members[i + 1] == members[1..][i];
      }
      if exists i :: 0 <= i < |members| && members[i].0 == key {
        var i :| 0 <= i < |members| && members[i].0 == key;
        assert members[1..][i - 1] == members[i];
      }
    }
  }

  /** A lookup in a concatenation finds the first part's member before the second's. */
  lemma {:induction false} LookupAppend(a: seq<(string, Json)>, b: seq<(string, Json)>, key: string)
    ensures Lookup(a + b, key) == if Lookup(a, key).Some? then Lookup(a, key) else Lookup(b, key)
  {
    if a != [] {
      assert (a + b)[1..] == a[1..] + b;
      LookupAppend(a[1..], b, key);
    } else {
      assert a + b == b;
    }
  }

  /** No string occurs twice. */
  predicate Distinct(keys: seq<string>) {
    forall i, j :: 0 <= i < j < |keys| ==> keys[i] != keys[j]
  }

  /**
   * The members of an object with the given keys, in that order; a key whose value
   * is None (undefined) is left out, as `JSON.stringify` leaves it out.
   */
  function Members(keys: seq<string>, values: seq<Option<Json>>): seq<(string, Json)>
    requires |keys| == |values|
  {
    if keys == [] then []
    else (if values[0].Some? then [(keys[0], values[0].value)] else []) + Members(keys[1..], values[1..])
  }

  /** A key that is not among `keys` is not found. */
  lemma {:induction false} LookupMissing(keys: seq<string>, values: seq<Option<Json>>, key: string)
    requires |keys| == |values|
    requires forall i :: 0 <= i < |keys| ==> keys[i] != key
    ensures Lookup(Members(keys, values), key) == None
  {
    if keys != [] {
      LookupMissing(keys[1..], values[1..], key);
      LookupAppend(if values[0].Some? then [(keys[0], values[0].value)] else [], Members(keys[1..], values[1..]), key);
    }
  }

  /** With distinct keys, reading key `i` gives value `i`, or undefined when it was left out. */
  lemma {:induction false} LookupMembers(keys: seq<string>, values: seq<Option<Json>>, i: nat)
    requires |keys| == |values| && Distinct(keys) && i < |keys|
    ensures Lookup(Members(keys, values), keys[i]) == values[i]
  {
    var head: seq<(string, Json)> := if values[0].Some? then [(keys[0], values[0].value)] else [];
    LookupAppend(head, Members(keys[1..], values[1..]), keys[i]);
    if i == 0 {
      LookupMissing(keys[1..], values[1..], keys[0]);
    } else {
      LookupMembers(keys[1..], values[1..], i - 1);
    }
  }

  /** The object with the given keys and values, undefined values left out. */
  function Object(keys: seq<string>, values: seq<Option<Json>>): Json
    requires |keys| == |values|
  {
    JObj(Members(keys, values))
  }

  /** Reading key `i` of an object built with distinct keys gives back value `i`. */
  lemma GetObject(keys: seq<string>, values: seq<Option<Json>>, i: nat)
    requires |keys| == |values| && Distinct(keys) && i < |keys|
    ensures Get(Object(keys, values), keys[i]) == values[i]
  {
    LookupMembers(keys, values, i);
  }
}
