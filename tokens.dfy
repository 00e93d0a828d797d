/**
 * `estimate_tokens`: a rough token count of a value about to be returned to
 * the caller, at one token per four characters, summed over containers.
 */
module Tokens {
  import opened Json
  import opened Text

  /** `max(1, n)`. */
  function AtLeastOne(n: nat): (r: nat)
    ensures r >= 1 && r >= n && (n >= 1 ==> r == n)
    ensures r == 1 || r == n
  {
    if n < 1 then 1 else n
  }

  /** Cost of a string: `max(1, len(s) // 4)`. */
  function StringTokens(s: string): nat {
    AtLeastOne(|s| / 4)
  }

  /** `len(str(v))` for `None`, booleans and integers. */
  function ReprLength(v: Json): nat
    requires v.JNull? || v.JBool? || v.JInt?
  {
    match v
    case JNull => |"None"|
    case JBool(b) => if b then |"True"| else |"False"|
    case JInt(i) => |IntToString(i)|
  }

  /**
   * `estimate_tokens(obj)`: a string costs a quarter of its length (at least 1),
   * a list the sum of its items, an object the sum over its entries of key
   * plus value, and any other scalar a quarter of the length of its `str`
   * (at least 1).
   */
  function EstimateTokens(v: Json): (n: nat)
    ensures !(v.JList? || v.JObject?) ==> n >= 1
    ensures v.JObject? ==> n >= |v.entries|
    decreases v
  {
    match v
    case JStr(s) => StringTokens(s)
    case JList(items) => ListTokens(items)
    case JObject(entries) => ObjectTokens(entries)
    case _ => AtLeastOne(ReprLength(v) / 4)
  }

  function ListTokens(items: seq<Json>): nat
    decreases items
  {
    if items == [] then 0 else EstimateTokens(items[0]) + ListTokens(items[1..])
  }

  function ObjectTokens(entries: seq<(string, Json)>): (n: nat)
    ensures n >= |entries|
    decreases entries
  {
    if entries == [] then 0 else EntryTokens(entries[0]) + ObjectTokens(entries[1..])
  }

  /** One `k, v` pair of `obj.items()`: `estimate_tokens(k) + estimate_tokens(v)`. */
  function EntryTokens(entry: (string, Json)): (n: nat)
    ensures n >= 1
    decreases entry
  {
    StringTokens(entry.0) + EstimateTokens(entry.1)
  }

  function Sum(ns: seq<nat>): nat {
    if ns == [] then 0 else ns[0] + Sum(ns[1..])
  }

  /** An object costs at least the sum of lower bounds on its entries. */
  lemma {:induction false} ObjectTokensAtLeast(entries: seq<(string, Json)>, floors: seq<nat>)
    requires |floors| == |entries|
    requires forall i :: 0 <= i < |entries| ==> EntryTokens(entries[i]) >= floors[i]
    ensures ObjectTokens(entries) >= Sum(floors)
    decreases entries
  {
    if entries != [] {
      ObjectTokensAtLeast(entries[1..], floors[1..]);
    }
  }

  /** A list of lists of lists ... ending in empty objects or nothing: the values that cost 0. */
  predicate Weightless(v: Json)
    decreases v
  {
    match v
    case JList(items) => forall i :: 0 <= i < |items| ==> Weightless(items[i])
    case JObject(entries) => entries == []
    case _ => false
  }

  /** The cost of a list is additive over concatenation: it is the sum of its items. */
  lemma {:induction false} ListTokensAppend(a: seq<Json>, b: seq<Json>)
    ensures ListTokens(a + b) == ListTokens(a) + ListTokens(b)
    decreases a
  {
    if a != [] {
      assert (a + b)[0] == a[0];
      assert (a + b)[1..] == a[1..] + b;
      ListTokensAppend(a[1..], b);
    } else {
      assert a + b == b;
    }
  }

  /** A value costs nothing exactly when it is weightless; every other value costs at least 1. */
  lemma {:induction false} ZeroTokensIffWeightless(v: Json)
    ensures EstimateTokens(v) == 0 <==> Weightless(v)
    decreases v
  {
    match v
    case JList(items) => ZeroListTokensIffWeightless(items);
    case _ =>
  }

  lemma {:induction false} ZeroListTokensIffWeightless(items: seq<Json>)
    ensures ListTokens(items) == 0 <==> forall i :: 0 <= i < |items| ==> Weightless(items[i])
    decreases items
  {
    if items != [] {
      ZeroTokensIffWeightless(items[0]);
      ZeroListTokensIffWeightless(items[1..]);
      assert forall i :: 1 <= i < |items| ==> items[1..][i - 1] == items[i];
    }
  }
}
