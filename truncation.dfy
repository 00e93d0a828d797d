/**
 * The token-limit loop shared by `list_installed_docsets` and
 * `search_documentation`: walk the raw records in order, build each one,
 * and keep it while the running total (starting at a fixed overhead) stays
 * within the limit; stop at the first record that would overflow.
 */
module Truncation {
  import opened Wrappers
  import opened Json

  /** The response budget, in estimated tokens. */
  const TokenLimit: nat := 25000
  /** What the response envelope is assumed to cost before any record is added. */
  const Overhead: nat := 100

  /** Sum of the costs of `items`. */
  function SumCost<T>(items: seq<T>, cost: T -> nat): nat {
    if items == [] then 0 else SumCost(items[..|items| - 1], cost) + cost(items[|items| - 1])
  }

  /** Sum of the costs of the records of `raw` that build; the others add nothing. */
  function ParsedCost<T>(raw: seq<Json>, parse: Json -> Option<T>, cost: T -> nat): nat {
    if raw == [] then 0
    else
      ParsedCost(raw[..|raw| - 1], parse, cost)
      + match parse(raw[|raw| - 1]) case Some(x) => cost(x) case None => 0
  }

  /** Each raw record builds, and builds to the matching element of `vals`. */
  predicate ParsesTo<T(==)>(raw: seq<Json>, parse: Json -> Option<T>, vals: seq<T>) {
    |raw| == |vals| && forall j :: 0 <= j < |raw| ==> parse(raw[j]) == Some(vals[j])
  }

  /**
   * `kept` is what the loop returns when it runs to the end or breaks: the
   * records built from a prefix of `raw`, in order and with none skipped,
   * within the limit, and either all of `raw` or stopped just before the
   * first record whose cost would have taken the total over the limit.
   */
  predicate IsTokenLimitedPrefix<T(==)>(raw: seq<Json>, parse: Json -> Option<T>, cost: T -> nat, kept: seq<T>) {
    && |kept| <= |raw|
    && ParsesTo(raw[..|kept|], parse, kept)
    && Overhead + SumCost(kept, cost) <= TokenLimit
    && (|kept| < |raw| ==>
          parse(raw[|kept|]).Some?
          && Overhead + SumCost(kept, cost) + cost(parse(raw[|kept|]).value) > TokenLimit)
  }

  /**
   * The loop raises at record `k`: the records before it all build and all fit,
   * and record `k` does not build (a missing key or a value of the wrong type).
   */
  predicate FailsAt<T(==)>(raw: seq<Json>, parse: Json -> Option<T>, cost: T -> nat, k: nat) {
    && k < |raw|
    && parse(raw[k]).None?
    && (forall j :: 0 <= j < k ==> parse(raw[j]).Some?)
    && Overhead + ParsedCost(raw[..k], parse, cost) <= TokenLimit
  }

  datatype LimitOutcome<T> = Kept(items: seq<T>) | Malformed(at: nat)

  /**
   * The loop itself. Records are built lazily, one per iteration, so a
   * malformed record after the cut-off point is never examined.
   */
  method TakeWithinLimit<T(==)>(raw: seq<Json>, parse: Json -> Option<T>, cost: T -> nat)
    returns (r: LimitOutcome<T>)
    ensures r.Kept? ==> IsTokenLimitedPrefix(raw, parse, cost, r.items)
    ensures r.Malformed? ==> FailsAt(raw, parse, cost, r.at)
  {
    var kept: seq<T> := [];
    var used: nat := Overhead;
    var i := 0;
    while i < |raw|
      invariant 0 <= i <= |raw| && |kept| == i
      invariant ParsesTo(raw[..i], parse, kept)
      invariant used == Overhead + SumCost(kept, cost) <= TokenLimit
    {
      var built := parse(raw[i]);
      if built.None? {
        ParsedCostOfParsed(raw[..i], parse, cost, kept);
        return Malformed(i);
      }
      var tokens := cost(built.value);
      if used + tokens > TokenLimit {
        break;
      }
      assert (kept + [built.value])[..i] == kept;
      assert raw[..i + 1][..i] == raw[..i];
      kept := kept + [built.value];
      used := used + tokens;
      i := i + 1;
    }
    return Kept(kept);
  }

  /** Over records that all build, the two ways of adding up agree. */
  lemma {:induction false} ParsedCostOfParsed<T>(raw: seq<Json>, parse: Json -> Option<T>, cost: T -> nat, vals: seq<T>)
    requires ParsesTo(raw, parse, vals)
    ensures ParsedCost(raw, parse, cost) == SumCost(vals, cost)
    decreases |raw|
  {
    if raw != [] {
      var n := |raw| - 1;
      assert ParsesTo(raw[..n], parse, vals[..n]);
      ParsedCostOfParsed(raw[..n], parse, cost, vals[..n]);
    }
  }

  /** Running totals never decrease: a prefix costs no more than the whole. */
  lemma {:induction false} SumCostPrefix<T>(items: seq<T>, cost: T -> nat, m: nat)
    requires m <= |items|
    ensures SumCost(items[..m], cost) <= SumCost(items, cost)
    decreases |items|
  {
    if m < |items| {
      var n := |items| - 1;
      assert items[..n][..m] == items[..m];
      SumCostPrefix(items[..n], cost, m);
    } else {
      assert items[..m] == items;
    }
  }

  lemma {:induction false} ParsedCostPrefix<T>(raw: seq<Json>, parse: Json -> Option<T>, cost: T -> nat, m: nat)
    requires m <= |raw|
    ensures ParsedCost(raw[..m], parse, cost) <= ParsedCost(raw, parse, cost)
    decreases |raw|
  {
    if m < |raw| {
      var n := |raw| - 1;
      assert raw[..n][..m] == raw[..m];
      ParsedCostPrefix(raw[..n], parse, cost, m);
    } else {
      assert raw[..m] == raw;
    }
  }

  /**
   * Maximality: the kept prefix is the longest one that fits. Every longer
   * prefix of `raw` whose records all build goes over the limit.
   */
  lemma LongestFittingPrefix<T>(raw: seq<Json>, parse: Json -> Option<T>, cost: T -> nat,
                                kept: seq<T>, n: nat, vals: seq<T>)
    requires IsTokenLimitedPrefix(raw, parse, cost, kept)
    requires |kept| < n <= |raw| && ParsesTo(raw[..n], parse, vals)
    ensures Overhead + SumCost(vals, cost) > TokenLimit
  {
    var m := |kept| + 1;
    assert vals[..m][..|kept|] == kept;
    assert vals[..m] == kept + [vals[|kept|]];
    assert (kept + [vals[|kept|]])[..|kept|] == kept;
    SumCostPrefix(vals, cost, m);
  }

  /**
   * The loop's outcome is determined by its input: the kept prefix is unique,
   * the failing index is unique, and the two outcomes exclude each other.
   */
  lemma TruncationDeterminate<T>(raw: seq<Json>, parse: Json -> Option<T>, cost: T -> nat)
    ensures forall a, b :: IsTokenLimitedPrefix(raw, parse, cost, a) && IsTokenLimitedPrefix(raw, parse, cost, b) ==> a == b
    ensures forall a: nat, b: nat :: FailsAt(raw, parse, cost, a) && FailsAt(raw, parse, cost, b) ==> a == b
    ensures forall kept, k: nat :: IsTokenLimitedPrefix(raw, parse, cost, kept) ==> !FailsAt(raw, parse, cost, k)
  {
    forall a, b | IsTokenLimitedPrefix(raw, parse, cost, a) && IsTokenLimitedPrefix(raw, parse, cost, b)
      ensures a == b
    {
      KeptPrefixUnique(raw, parse, cost, a, b);
    }
    forall kept, k: nat | IsTokenLimitedPrefix(raw, parse, cost, kept)
      ensures !FailsAt(raw, parse, cost, k)
    {
      if FailsAt(raw, parse, cost, k) && k > |kept| {
        var m := |kept| + 1;
        var next := kept + [parse(raw[|kept|]).value];
        assert next[..|kept|] == kept;
        assert raw[..k][..m] == raw[..m];
        assert ParsesTo(raw[..m], parse, next);
        ParsedCostOfParsed(raw[..m], parse, cost, next);
        ParsedCostPrefix(raw[..k], parse, cost, m);
      }
    }
  }

  lemma KeptPrefixUnique<T>(raw: seq<Json>, parse: Json -> Option<T>, cost: T -> nat, a: seq<T>, b: seq<T>)
    requires IsTokenLimitedPrefix(raw, parse, cost, a) && IsTokenLimitedPrefix(raw, parse, cost, b)
    ensures a == b
  {
    if |a| < |b| {
      assert ParsesTo(raw[..|b|], parse, b);
      LongestFittingPrefix(raw, parse, cost, a, |b|, b);
    } else if |b| < |a| {
      assert ParsesTo(raw[..|a|], parse, a);
      LongestFittingPrefix(raw, parse, cost, b, |a|, a);
    } else {
      assert forall j :: 0 <= j < |a| ==> parse(raw[..|a|][j]) == Some(a[j]) && parse(raw[..|b|][j]) == Some(b[j]);
    }
  }

  /** Items that each cost at least `m` cost at least `m` apiece in total. */
  lemma {:induction false} SumCostAtLeast<T>(items: seq<T>, cost: T -> nat, m: nat)
    requires forall i :: 0 <= i < |items| ==> cost(items[i]) >= m
    ensures SumCost(items, cost) >= m * |items|
    decreases |items|
  {
    if items != [] {
      var n := |items| - 1;
      SumCostAtLeast(items[..n], cost, m);
      assert m * |items| == m * n + m;
    }
  }

  /**
   * When every record costs at least `m`, at most (limit - overhead) / m
   * records are ever returned.
   */
  lemma KeptAtMost<T>(raw: seq<Json>, parse: Json -> Option<T>, cost: T -> nat, kept: seq<T>, m: nat)
    requires IsTokenLimitedPrefix(raw, parse, cost, kept)
    requires 0 < m && forall x :: cost(x) >= m
    ensures |kept| <= (TokenLimit - Overhead) / m
  {
    SumCostAtLeast(kept, cost, m);
    QuotientBound(|kept|, m, TokenLimit - Overhead);
  }

  lemma QuotientBound(k: nat, m: nat, l: nat)
    requires 0 < m && m * k <= l
    ensures k <= l / m
  {
    var q, r := l / m, l % m;
    assert l == m * q + r && r < m;
    assert m * k < m * (q + 1);
  }
}
