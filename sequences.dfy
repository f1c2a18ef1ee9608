/** Generic facts about sequences: subsequences, JavaScript's `splice(index, 1)` and keyed lookup. */
module Sequences {
  import opened Wrappers

  /**
   * The last index whose key is `k`. A JavaScript `Map` or plain object filled in
   * insertion order is a sequence of entries with distinct keys; this is its `has`/`get`.
   */
  function FindLastKey<T, K(==)>(s: seq<T>, key: T -> K, k: K): (r: Option<nat>)
    ensures r.None? <==> forall i :: 0 <= i < |s| ==> key(s[i]) != k
    ensures r.Some? ==> r.value < |s| && key(s[r.value]) == k
    ensures r.Some? ==> forall i :: r.value < i < |s| ==> key(s[i]) != k
  {
    if s == [] then None
    else if key(s[|s| - 1]) == k then Some(|s| - 1)
    else FindLastKey(s[..|s| - 1], key, k)
  }

  /** A sequence is a subsequence of itself. */
  lemma {:induction false} SubsequenceReflexive<T>(s: seq<T>)
    ensures IsSubsequence(s, s)
  {
    if s != [] {
      SubsequenceReflexive(s[1..]);
    }
  }

  /** `a` can be obtained from `b` by deleting elements (greedy left-to-right matching). */
  predicate IsSubsequence<T(==)>(a: seq<T>, b: seq<T>)
    ensures IsSubsequence(a, b) ==> |a| <= |b|
    decreases |b|
  {
    if a == [] then true
    else if b == [] then false
    else if a[0] == b[0] then IsSubsequence(a[1..], b[1..])
    else IsSubsequence(a, b[1..])
  }

  /** Skipping the head of `b` keeps a subsequence a subsequence. */
  lemma {:induction false} SubsequenceOfTail<T>(a: seq<T>, b: seq<T>)
    requires b != [] && IsSubsequence(a, b[1..])
    ensures IsSubsequence(a, b)
    decreases |b|, |a|
  {
    if a != [] && a[0] == b[0] {
      var t := b[1..];
      if t[0] == a[0] {
        SubsequenceOfTail(a[1..], t);
      } else {
        DropHead(a, t);
      }
    }
  }

  /** Dropping the head of a subsequence keeps it a subsequence. */
  lemma {:induction false} DropHead<T>(a: seq<T>, b: seq<T>)
    requires a != [] && IsSubsequence(a, b)
    ensures IsSubsequence(a[1..], b)
    decreases |b|, |a|
  {
    if a[0] == b[0] {
      SubsequenceOfTail(a[1..], b);
    } else {
      DropHead(a, b[1..]);
      SubsequenceOfTail(a[1..], b);
    }
  }

  /** Every element of a subsequence occurs in the sequence it was taken from. */
  lemma {:induction false} SubsequenceElements<T>(a: seq<T>, b: seq<T>, x: T)
    requires IsSubsequence(a, b) && x in a
    ensures x in b
    decreases |b|
  {
    if a[0] == b[0] {
      if x != a[0] {
        assert x in a[1..];
        SubsequenceElements(a[1..], b[1..], x);
      }
    } else {
      SubsequenceElements(a, b[1..], x);
    }
  }

  /** The start position JavaScript's `splice(index, 1)` uses on an array of length `n`. */
  function SpliceStart(n: nat, index: int): (k: nat)
    ensures k <= n
    ensures 0 <= index <= n ==> k == index
    ensures index < 0 && n + index >= 0 ==> k == n + index
  {
    if index < 0 then (if n + index < 0 then 0 else n + index)
    else if index > n then n
    else index
  }

  /** `s.splice(index, 1)`: removes the element at the (normalised) start, if there is one. */
  function SpliceOne<T>(s: seq<T>, index: int): (r: seq<T>)
    ensures SpliceStart(|s|, index) < |s| ==> |r| == |s| - 1
    ensures SpliceStart(|s|, index) == |s| ==> r == s
    ensures forall k :: 0 <= k < SpliceStart(|s|, index) && k < |r| ==> r[k] == s[k]
    ensures forall k :: SpliceStart(|s|, index) <= k < |r| ==> r[k] == s[k + 1]
  {
    var k := SpliceStart(|s|, index);
    if k < |s| then s[..k] + s[k + 1..] else s
  }
}
