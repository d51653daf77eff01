/**
 * The Fisher–Yates shuffle of the team-name list, with the random index of
 * each step supplied by the caller.
 */
module Shuffle {

  /** A choice of random indices for a list of `n`: at step `i` (from n-1 down to 1) an index in [0, i]. */
  predicate ValidPicks(picks: seq<int>, n: nat) {
    |picks| == n && forall i :: 0 < i < n ==> 0 <= picks[i] <= i
  }

  /** `[s[i], s[j]] = [s[j], s[i]]` on a list. */
  function Swap<T>(s: seq<T>, i: nat, j: nat): (r: seq<T>)
    requires i < |s| && j < |s|
    ensures |r| == |s| && r[i] == s[j] && r[j] == s[i]
    ensures forall k :: 0 <= k < |s| && k != i && k != j ==> r[k] == s[k]
  {
    s[i := s[j]][j := s[i]]
  }

  /** A swap rearranges the list without adding or losing anything. */
  lemma SwapPermutes<T>(s: seq<T>, i: nat, j: nat)
    requires i < |s| && j < |s|
    ensures multiset(Swap(s, i, j)) == multiset(s)
  {
    var t := s[i := s[j]];
    assert multiset(t) == multiset(s) - multiset{s[i]} + multiset{s[j]};
    assert multiset(t[j := s[i]]) == multiset(t) - multiset{t[j]} + multiset{s[i]};
  }

  /** The list after the loop has run its steps `i`, `i - 1`, ..., 1 on `s`. */
  function FisherYates<T>(s: seq<T>, picks: seq<int>, i: int): (r: seq<T>)
    requires ValidPicks(picks, |s|) && i < |s|
    ensures |r| == |s|
    decreases i
  {
    if i <= 0 then s else FisherYates(Swap(s, i, picks[i]), picks, i - 1)
  }

  /** The whole shuffle: steps `|s| - 1` down to 1. */
  function Shuffled<T>(s: seq<T>, picks: seq<int>): (r: seq<T>)
    requires ValidPicks(picks, |s|)
    ensures |r| == |s| && multiset(r) == multiset(s)
  {
    FisherYatesPermutes(s, picks, |s| - 1);
    FisherYates(s, picks, |s| - 1)
  }

  /** The shuffle is a permutation: same length, same multiset of names. */
  lemma {:induction false} FisherYatesPermutes<T>(s: seq<T>, picks: seq<int>, i: int)
    requires ValidPicks(picks, |s|) && i < |s|
    ensures multiset(FisherYates(s, picks, i)) == multiset(s)
    decreases i
  {
    if i > 0 {
      SwapPermutes(s, i, picks[i]);
      FisherYatesPermutes(Swap(s, i, picks[i]), picks, i - 1);
    }
  }

  /** Once step `i` is over, the positions above `i` are never touched again. */
  lemma {:induction false} FisherYatesKeepsAbove<T>(s: seq<T>, picks: seq<int>, i: int, k: int)
    requires ValidPicks(picks, |s|) && 0 <= k && i < k < |s|
    ensures FisherYates(s, picks, i)[k] == s[k]
    decreases i
  {
    if i > 0 {
      FisherYatesKeepsAbove(Swap(s, i, picks[i]), picks, i - 1, k);
    }
  }

  /** The click handler's loop over `names`, in place. */
  method ShuffleInPlace<T>(names: array<T>, picks: seq<int>)
    requires ValidPicks(picks, names.Length)
    modifies names
    ensures names[..] == Shuffled(old(names[..]), picks)
    ensures multiset(names[..]) == multiset(old(names[..]))
  {
    ghost var target := Shuffled(old(names[..]), picks);
    var i := names.Length - 1;
    while i > 0
      invariant -1 <= i < names.Length
      invariant FisherYates(names[..], picks, i) == target
    {
      var j := picks[i];
      ghost var before := names[..];
      names[i], names[j] := names[j], names[i];
      assert names[..] == Swap(before, i, j);
      i := i - 1;
    }
    FisherYatesPermutes(old(names[..]), picks, names.Length - 1);
  }
}
