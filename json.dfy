/** JSON values as Express's `res.json` serialises them; object members keep their insertion order. */
module Json {
  import opened Wrappers

  datatype Json =
    | JNull
    | JBool(b: bool)
    | JNumber(n: int)
    | JString(s: string)
    | JArray(items: seq<Json>)
    | JObject(members: seq<(string, Json)>)

  function Keys(members: seq<(string, Json)>): (r: seq<string>)
    ensures |r| == |members|
    ensures forall k :: 0 <= k < |r| ==> r[k] == members[k].0
  {
    if members == [] then [] else [members[0].0] + Keys(members[1..])
  }

  /** The member `key` of an object (the first one, should there be several). */
  function Get(value: Json, key: string): Option<Json>
  {
    if !value.JObject? then None else Lookup(value.members, key)
  }

  function Lookup(members: seq<(string, Json)>, key: string): Option<Json>
  {
    if members == [] then None
    else if members[0].0 == key then Some(members[0].1)
    else Lookup(members[1..], key)
  }

  /** Appending a member leaves earlier keys as they were and makes a new key visible. */
  lemma {:induction false} LookupAppend(members: seq<(string, Json)>, k: string, v: Json, key: string)
    ensures Lookup(members + [(k, v)], key) ==
      if Lookup(members, key).Some? then Lookup(members, key) else if k == key then Some(v) else None
    decreases |members|
  {
    if members != [] {
      assert (members + [(k, v)])[1..] == members[1..] + [(k, v)];
      LookupAppend(members[1..], k, v, key);
    }
  }

  /** A key not among an object's keys has no member. */
  lemma {:induction false} LookupAbsent(members: seq<(string, Json)>, key: string)
    requires key !in Keys(members)
    ensures Lookup(members, key) == None
    decreases |members|
  {
    if members != [] {
      assert Keys(members)[0] == members[0].0;
      assert forall j :: 0 <= j < |members| - 1 ==> Keys(members[1..])[j] == Keys(members)[j + 1];
      LookupAbsent(members[1..], key);
    }
  }
}
