/** Sequence helpers shared by the model: the duplicate-free list, the
    `Vec::retain` filter and the iterator maximum. */
module Seqs {

  ghost predicate NoDuplicates<T>(s: seq<T>)
  {
    forall i, j :: 0 <= i < j < |s| ==> s[i] != s[j]
  }

  /** `v.retain(|&b| b != x)`: every occurrence of `x` dropped, the other
      elements kept in order. */
  function RemoveAll<T(==)>(s: seq<T>, x: T): (r: seq<T>)
    ensures x !in r
    ensures |r| <= |s|
  {
    if s == [] then []
    else if s[0] == x then RemoveAll(s[1..], x)
    else [s[0]] + RemoveAll(s[1..], x)
  }

  /** Removing `x` keeps every other element with its multiplicity. */
  lemma {:induction false} RemoveAllKeepsOthers<T>(s: seq<T>, x: T, y: T)
    requires y != x
    ensures multiset(RemoveAll(s, x))[y] == multiset(s)[y]
  {
    if s != [] {
      RemoveAllKeepsOthers(s[1..], x, y);
      assert s == [s[0]] + s[1..];
    }
  }

  /** Removing an element that is not there changes nothing, so the guard
      `contains` before `retain` does not change the result. */
  lemma {:induction false} RemoveAllAbsent<T>(s: seq<T>, x: T)
    requires x !in s
    ensures RemoveAll(s, x) == s
  {
    if s != [] {
      assert x !in s[1..];
      RemoveAllAbsent(s[1..], x);
      assert s == [s[0]] + s[1..];
    }
  }

  /** The result is a subsequence of the input: its elements appear in the
      input in the same order (witnessed by strictly increasing positions). */
  lemma {:induction false} RemoveAllInOrder<T>(s: seq<T>, x: T) returns (pos: seq<nat>)
    ensures |pos| == |RemoveAll(s, x)|
    ensures forall k :: 0 <= k < |pos| ==> pos[k] < |s| && s[pos[k]] == RemoveAll(s, x)[k]
    ensures forall k, l :: 0 <= k < l < |pos| ==> pos[k] < pos[l]
  {
    if s == [] {
      pos := [];
    } else {
      var tail := RemoveAllInOrder(s[1..], x);
      var shifted := seq(|tail|, k requires 0 <= k < |tail| => tail[k] + 1);
      if s[0] == x {
        pos := shifted;
      } else {
        pos := [0] + shifted;
      }
    }
  }

  /** Duplicate freedom survives appending an element that is not present. */
  lemma AppendFreshKeepsNoDuplicates<T>(s: seq<T>, x: T)
    requires NoDuplicates(s) && x !in s
    ensures NoDuplicates(s + [x])
  {
  }

  /** `iter().max().unwrap_or(0)` over a sequence of naturals. */
  function MaxNat(xs: seq<nat>): (m: nat)
    ensures forall i :: 0 <= i < |xs| ==> xs[i] <= m
    ensures xs == [] ==> m == 0
    ensures xs != [] ==> exists i :: 0 <= i < |xs| && xs[i] == m
  {
    if xs == [] then 0
    else
      var t := MaxNat(xs[1..]);
      if xs[0] >= t then xs[0]
      else
        assert exists i :: 0 <= i < |xs[1..]| && xs[1..][i] == t;
        var i :| 0 <= i < |xs[1..]| && xs[1..][i] == t;
        assert xs[i + 1] == t;
        t
  }
}
