/**
 * The string-keyed counters the statistics code builds in plain JavaScript
 * objects (`counts[k] = (counts[k] ?? 0) + 1`, `counts[k] = v`). An object
 * is modelled by its entries in insertion order, the order `Object.entries`
 * reports for keys that are not array indices.
 */
module Tally {
  import opened Common

  type Counts = seq<(string, nat)>

  /** No key appears twice, as in a JavaScript object. */
  predicate Keyed(c: Counts)
  {
    forall i, j | 0 <= i < j < |c| :: c[i].0 != c[j].0
  }

  predicate HasKey(c: Counts, k: string)
  {
    exists i :: 0 <= i < |c| && c[i].0 == k
  }

  /** `c[k] ?? 0`. */
  function Get(c: Counts, k: string): (v: nat)
    ensures !HasKey(c, k) ==> v == 0
    ensures Keyed(c) ==> forall i | 0 <= i < |c| && c[i].0 == k :: v == c[i].1
  {
    if c == [] then 0
    else if c[0].0 == k then c[0].1
    else Get(c[1..], k)
  }

  /** Past a first entry that is not `k`, `k` is a key of the counter exactly when it is one of the rest. */
  lemma HasKeyTail(c: Counts, k: string)
    requires c != [] && c[0].0 != k
    ensures HasKey(c, k) <==> HasKey(c[1..], k)
  {
    if HasKey(c, k) {
      var i :| 0 <= i < |c| && c[i].0 == k;
      assert c[1..][i - 1].0 == k;
    }
    if HasKey(c[1..], k) {
      var i :| 0 <= i < |c[1..]| && c[1..][i].0 == k;
      assert c[i + 1].0 == k;
    }
  }

  /** A keyed counter's first entry in front of a keyed rest with the same keys, in order, is keyed. */
  lemma KeyedCons(c: Counts, rest: Counts)
    requires c != [] && Keyed(c) && Keyed(rest)
    requires |rest| >= |c| - 1
    requires forall i | 0 <= i < |c| - 1 :: rest[i].0 == c[i + 1].0
    requires forall i | |c| - 1 <= i < |rest| :: rest[i].0 != c[0].0
    ensures Keyed([c[0]] + rest)
  {
    var r := [c[0]] + rest;
    forall i, j | 0 <= i < j < |r| ensures r[i].0 != r[j].0 {
      if i > 0 {
        assert r[i] == rest[i - 1] && r[j] == rest[j - 1];
      } else if j - 1 < |c| - 1 {
        assert r[j].0 == c[j].0;
      }
    }
  }

  /** Sum of all values. */
  function Total(c: Counts): nat
  {
    if c == [] then 0 else c[0].1 + Total(c[1..])
  }

  /** `c[k] = v`: an existing key keeps its position, a new one goes last. */
  function Put(c: Counts, k: string, v: nat): (r: Counts)
    ensures |r| == if HasKey(c, k) then |c| else |c| + 1
    ensures forall i | 0 <= i < |c| :: r[i].0 == c[i].0
    ensures !HasKey(c, k) ==> r == c + [(k, v)]
    ensures Keyed(c) ==> Keyed(r)
    ensures Get(r, k) == v
    ensures forall k' | k' != k :: Get(r, k') == Get(c, k')
  {
    if c == [] then [(k, v)]
    else if c[0].0 == k then [(k, v)] + c[1..]
    else
      var rest := Put(c[1..], k, v);
      HasKeyTail(c, k);
      var r := [c[0]] + rest;
      assert r[1..] == rest;
      assert Keyed(c) ==> Keyed(r) by {
        if Keyed(c) {
          assert Keyed(c[1..]);
          KeyedCons(c, rest);
        }
      }
      r
  }

  /** `c[k] = (c[k] ?? 0) + 1`. */
  function Bump(c: Counts, k: string): (r: Counts)
    ensures Keyed(c) ==> Keyed(r)
    ensures Get(r, k) == Get(c, k) + 1
    ensures forall k' | k' != k :: Get(r, k') == Get(c, k')
  {
    Put(c, k, Get(c, k) + 1)
  }

  /** Adding one to a key adds one to the sum of a keyed counter. */
  lemma {:induction false} BumpTotal(c: Counts, k: string)
    requires Keyed(c)
    ensures Total(Bump(c, k)) == Total(c) + 1
  {
    PutTotal(c, k, Get(c, k) + 1);
  }

  lemma {:induction false} PutTotal(c: Counts, k: string, v: nat)
    requires Keyed(c)
    ensures Total(Put(c, k, v)) == Total(c) - Get(c, k) + v
  {
    if c != [] && c[0].0 != k {
      assert Keyed(c[1..]) by {
        forall i, j | 0 <= i < j < |c[1..]| ensures c[1..][i].0 != c[1..][j].0 {
          assert c[i + 1].0 != c[j + 1].0;
        }
      }
      PutTotal(c[1..], k, v);
    } else if c != [] {
      assert Get(c, k) == c[0].1;
    }
  }

  /** The key a document status is counted under: a missing status counts as `'uploaded'`. */
  function StatusKey(status: Option<string>): string
  {
    OrElse(status, "uploaded")
  }

  /**
   * The status counter built by visiting `statuses` in order, as the
   * `forEach` loops in the statistics functions do.
   */
  function StatusTally(statuses: seq<Option<string>>): (c: Counts)
    ensures Keyed(c)
  {
    if statuses == [] then []
    else Bump(StatusTally(statuses[..|statuses| - 1]), StatusKey(statuses[|statuses| - 1]))
  }

  /** The status counts add up to the number of documents visited. */
  lemma {:induction false} StatusTallyTotal(statuses: seq<Option<string>>)
    ensures Total(StatusTally(statuses)) == |statuses|
  {
    if statuses != [] {
      StatusTallyTotal(statuses[..|statuses| - 1]);
      BumpTotal(StatusTally(statuses[..|statuses| - 1]), StatusKey(statuses[|statuses| - 1]));
    }
  }

  /** How many of `statuses` are counted under `k`. */
  function StatusCount(statuses: seq<Option<string>>, k: string): nat
  {
    if statuses == [] then 0
    else StatusCount(statuses[..|statuses| - 1], k) + (if StatusKey(statuses[|statuses| - 1]) == k then 1 else 0)
  }

  /** Each status is counted once per document carrying it, a missing status as `'uploaded'`. */
  lemma {:induction false} StatusTallyCounts(statuses: seq<Option<string>>, k: string)
    ensures Get(StatusTally(statuses), k) == StatusCount(statuses, k)
  {
    if statuses != [] {
      StatusTallyCounts(statuses[..|statuses| - 1], k);
    }
  }
}
