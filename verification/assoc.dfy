/**
 * Building a map from a sequence of key/value pairs the way a Python loop of
 * `d[k] = v` or `dict(pairs)` does: every key ends up present and a key that
 * occurs more than once keeps the value of its LAST occurrence.
 */
module Assoc {
  import opened Wrappers

  function FromPairs<K(==), V>(ps: seq<(K, V)>): (m: map<K, V>)
    ensures forall i :: 0 <= i < |ps| ==> ps[i].0 in m
    ensures forall k :: k in m ==> exists i :: 0 <= i < |ps| && ps[i].0 == k
    ensures |ps| > 0 ==> m[ps[|ps| - 1].0] == ps[|ps| - 1].1
  {
    if |ps| == 0 then map[]
    else
      var last := ps[|ps| - 1];
      FromPairs(ps[..|ps| - 1])[last.0 := last.1]
  }

  /** Reference reading: scan the pairs from the end for the first one with key `k`. */
  function LastValue<K(==), V>(ps: seq<(K, V)>, k: K): Option<V>
  {
    if |ps| == 0 then None
    else if ps[|ps| - 1].0 == k then Some(ps[|ps| - 1].1)
    else LastValue(ps[..|ps| - 1], k)
  }

  /** Lookup in the built map agrees with the backward scan, for every key. */
  lemma {:induction false} FromPairsIsLastValue<K, V>(ps: seq<(K, V)>, k: K)
    ensures k in FromPairs(ps) <==> LastValue(ps, k).Some?
    ensures k in FromPairs(ps) ==> FromPairs(ps)[k] == LastValue(ps, k).value
  {
    if |ps| > 0 {
      FromPairsIsLastValue(ps[..|ps| - 1], k);
    }
  }

  /** A pair whose key does not occur again later decides that key's value. */
  lemma {:induction false} LastOccurrenceWins<K, V>(ps: seq<(K, V)>, i: nat)
    requires i < |ps|
    requires forall j :: i < j < |ps| ==> ps[j].0 != ps[i].0
    ensures FromPairs(ps)[ps[i].0] == ps[i].1
  {
    if i < |ps| - 1 {
      var front := ps[..|ps| - 1];
      assert front[i] == ps[i];
      LastOccurrenceWins(front, i);
    }
  }

  /** Python's `zip(a, b)`: pairs up to the shorter length. */
  function Zip<A, B>(a: seq<A>, b: seq<B>): (z: seq<(A, B)>)
    ensures |z| == if |a| < |b| then |a| else |b|
    ensures forall i :: 0 <= i < |z| ==> z[i] == (a[i], b[i])
  {
    if |a| == 0 || |b| == 0 then [] else [(a[0], b[0])] + Zip(a[1..], b[1..])
  }
}
