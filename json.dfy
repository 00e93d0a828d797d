/**
 * Decoded JSON values as the server sees them after `response.json()` or
 * `json.load`: the results of Python's `json` module (floats are not modelled).
 * An object is a list of entries in document order.
 */
module Json {
  import opened Wrappers

  datatype Json =
    | JNull
    | JBool(b: bool)
    | JInt(i: int)
    | JStr(s: string)
    | JList(items: seq<Json>)
    | JObject(entries: seq<(string, Json)>)

  /** `key` is one of the keys of `entries`. */
  predicate HasKey(entries: seq<(string, Json)>, key: string) {
    exists i :: 0 <= i < |entries| && entries[i].0 == key
  }

  /**
   * `obj.get(key)` on a decoded object. When a document repeats a key, Python's
   * `json` keeps the last value, so the search runs from the end.
   */
  function Lookup(entries: seq<(string, Json)>, key: string): (r: Option<Json>)
    ensures r.Some? <==> HasKey(entries, key)
  {
    if entries == [] then None
    else
      var last := entries[|entries| - 1];
      if last.0 == key then Some(last.1)
      else
        var r := Lookup(entries[..|entries| - 1], key);
        assert forall i :: 0 <= i < |entries| - 1 ==> entries[..|entries| - 1][i] == entries[i];
        r
  }

  /** The entry at `i` is the value of its key when no later entry repeats that key. */
  lemma {:induction false} LookupAt(entries: seq<(string, Json)>, i: int)
    requires 0 <= i < |entries|
    requires forall k :: i < k < |entries| ==> entries[k].0 != entries[i].0
    ensures Lookup(entries, entries[i].0) == Some(entries[i].1)
    decreases |entries|
  {
    var n := |entries| - 1;
    if i < n {
      assert entries[..n][i] == entries[i];
      LookupAt(entries[..n], i);
    }
  }

  /** Index `i` holds the last entry of `entries` carrying `key`. */
  predicate LastWithKey(entries: seq<(string, Json)>, key: string, i: int) {
    0 <= i < |entries| && entries[i].0 == key && forall k :: i < k < |entries| ==> entries[k].0 != key
  }

  /** What `Lookup` finds is the value of the last entry carrying the key. */
  lemma LookupFindsLast(entries: seq<(string, Json)>, key: string)
    requires HasKey(entries, key)
    ensures exists i :: LastWithKey(entries, key, i) && entries[i].1 == Lookup(entries, key).value
  {
    LastOccurrence(entries, key);
    var i :| LastWithKey(entries, key, i);
    LookupAt(entries, i);
  }

  lemma {:induction false} LastOccurrence(entries: seq<(string, Json)>, key: string)
    requires HasKey(entries, key)
    ensures exists i :: LastWithKey(entries, key, i)
    decreases |entries|
  {
    var n := |entries| - 1;
    if entries[n].0 == key {
      assert LastWithKey(entries, key, n);
    } else {
      var j :| 0 <= j < |entries| && entries[j].0 == key;
      assert entries[..n][j].0 == key;
      LastOccurrence(entries[..n], key);
      var i :| LastWithKey(entries[..n], key, i);
      forall k | i < k < |entries|
        ensures entries[k].0 != key
      {
        if k < n {
          assert entries[..n][k] == entries[k];
        }
      }
      assert LastWithKey(entries, key, i);
    }
  }

  /** `obj.get(key, default)`. */
  function GetOr(entries: seq<(string, Json)>, key: string, default: Json): Json {
    match Lookup(entries, key)
    case Some(v) => v
    case None => default
  }

  /**
   * What `for x in v` visits, for the values that `len(v)` accepts: the items of
   * a list, the one-character strings of a string, the keys of an object.
   * `None` for `null`, booleans and integers, on which Python raises `TypeError`.
   */
  function Iterate(v: Json): (r: Option<seq<Json>>)
    ensures r.Some? <==> v.JList? || v.JStr? || v.JObject?
    ensures v.JList? ==> r == Some(v.items)
    ensures v.JStr? ==> (r.Some? && |r.value| == |v.s|
                         && forall i :: 0 <= i < |v.s| ==> r.value[i] == JStr([v.s[i]]))
    ensures v.JObject? ==> (r.Some? && |r.value| == |v.entries|
                            && forall i :: 0 <= i < |v.entries| ==> r.value[i] == JStr(v.entries[i].0))
  {
    match v
    case JList(items) => Some(items)
    case JStr(s) => Some(seq(|s|, i requires 0 <= i < |s| => JStr([s[i]])))
    case JObject(entries) => Some(seq(|entries|, i requires 0 <= i < |entries| => JStr(entries[i].0)))
    case _ => None
  }
}
