/** `shuffleArray` (src/pages/Index.tsx): the Durstenfeld form of the
    Fisher-Yates shuffle (Knuth, The Art of Computer Programming, vol. 2,
    section 3.4.2, Algorithm P). The input is copied, then for i from the
    last index down to 1 element i is swapped with a drawn index j in 0 .. i. */
module Shuffle {
  import Draws

  /** No value occurs twice. */
  predicate Distinct<T(==)>(s: seq<T>) {
    forall i, j :: 0 <= i < j < |s| ==> s[i] != s[j]
  }

  /** `Math.floor(Math.random() * (i + 1))`, the partner index of step i. */
  function SwapIndex(u: real, i: nat): (j: nat)
    requires Draws.IsUnit(u)
    ensures j <= i
  {
    Draws.ScaledFloor(u, i + 1)
  }

  /** The destructuring swap `[s[i], s[j]] = [s[j], s[i]]`. */
  function Swap<T>(s: seq<T>, i: nat, j: nat): (r: seq<T>)
    requires i < |s| && j < |s|
    ensures |r| == |s| && r[i] == s[j] && r[j] == s[i]
    ensures forall k :: 0 <= k < |s| && k != i && k != j ==> r[k] == s[k]
  {
    s[i := s[j]][j := s[i]]
  }

  /** A swap rearranges values without adding or losing any. */
  lemma SwapPermutes<T>(s: seq<T>, i: nat, j: nat)
    requires i < |s| && j < |s|
    ensures multiset(Swap(s, i, j)) == multiset(s)
  {
  }

  /** What the loop still does to `s` when its counter stands at `i`:
      steps i, i-1, ..., 1, step k using the draw `draws[k]`. */
  function FisherYates<T>(s: seq<T>, draws: seq<real>, i: int): (r: seq<T>)
    requires i < |s| == |draws| && Draws.AllUnit(draws)
    ensures |r| == |s|
    decreases i
  {
    if i <= 0 then s
    else FisherYates(Swap(s, i, SwapIndex(draws[i], i)), draws, i - 1)
  }

  /** The shuffle is a permutation of its input: same length, same values
      with the same multiplicities. */
  lemma {:induction false} FisherYatesPermutes<T>(s: seq<T>, draws: seq<real>, i: int)
    requires i < |s| == |draws| && Draws.AllUnit(draws)
    ensures multiset(FisherYates(s, draws, i)) == multiset(s)
    decreases i
  {
    if i > 0 {
      SwapPermutes(s, i, SwapIndex(draws[i], i));
      FisherYatesPermutes(Swap(s, i, SwapIndex(draws[i], i)), draws, i - 1);
    }
  }

  /** The whole shuffle of `s`; `draws[0]` is never used, as the loop stops at 1. */
  function Shuffled<T>(s: seq<T>, draws: seq<real>): seq<T>
    requires |s| == |draws| && Draws.AllUnit(draws)
  {
    FisherYates(s, draws, |s| - 1)
  }

  /** A swap keeps a sequence free of duplicates. */
  lemma SwapKeepsDistinct<T>(s: seq<T>, i: nat, j: nat)
    requires i < |s| && j < |s| && Distinct(s)
    ensures Distinct(Swap(s, i, j))
  {
  }

  /** The shuffle of a sequence without duplicates has none either. */
  lemma {:induction false} FisherYatesKeepsDistinct<T>(s: seq<T>, draws: seq<real>, i: int)
    requires i < |s| == |draws| && Draws.AllUnit(draws) && Distinct(s)
    ensures Distinct(FisherYates(s, draws, i))
    decreases i
  {
    FisherYatesPermutes(s, draws, i);
    if i > 0 {
      var t := Swap(s, i, SwapIndex(draws[i], i));
      SwapKeepsDistinct(s, i, SwapIndex(draws[i], i));
      FisherYatesKeepsDistinct(t, draws, i - 1);
    }
  }

  /** Every value of the shuffle comes from the input, and every input
      value is in the shuffle. */
  lemma ShuffledSameValues<T>(s: seq<T>, draws: seq<real>)
    requires |s| == |draws| && Draws.AllUnit(draws)
    ensures forall x :: x in Shuffled(s, draws) <==> x in s
  {
    var r := Shuffled(s, draws);
    FisherYatesPermutes(s, draws, |s| - 1);
    forall x ensures x in r <==> x in s {
      assert x in r <==> x in multiset(r);
      assert x in s <==> x in multiset(s);
    }
  }

  /** The first `n` entries of a shuffle of a sequence without duplicates:
      exactly `n` of them, none twice, all taken from the input. */
  lemma ShuffledPrefix<T>(s: seq<T>, draws: seq<real>, n: nat)
    requires |s| == |draws| && Draws.AllUnit(draws) && Distinct(s) && n <= |s|
    ensures |Shuffled(s, draws)[..n]| == n
    ensures Distinct(Shuffled(s, draws)[..n])
    ensures forall k :: 0 <= k < n ==> Shuffled(s, draws)[..n][k] in s
  {
    FisherYatesKeepsDistinct(s, draws, |s| - 1);
    FisherYatesPermutes(s, draws, |s| - 1);
    var r := Shuffled(s, draws);
    forall k | 0 <= k < n ensures r[..n][k] in s {
      assert r[..n][k] == r[k] && r[k] in multiset(r);
    }
  }

  /** `shuffleArray`: copies the input into a new array and shuffles the copy
      in place; the caller's input is a sequence value, so only the copy
      changes. */
  method ShuffleArray<T>(input: seq<T>, draws: seq<real>) returns (shuffled: array<T>)
    requires |input| == |draws| && Draws.AllUnit(draws)
    ensures fresh(shuffled)
    ensures shuffled[..] == Shuffled(input, draws)
    ensures |shuffled[..]| == |input| && multiset(shuffled[..]) == multiset(input)
  {
    shuffled := new T[|input|](k requires 0 <= k < |input| => input[k]);
    assert shuffled[..] == input;
    var i := shuffled.Length - 1;
    while i > 0
      invariant -1 <= i < shuffled.Length == |input|
      invariant FisherYates(shuffled[..], draws, i) == Shuffled(input, draws)
    {
      var j := SwapIndex(draws[i], i);
      ghost var before := shuffled[..];
      shuffled[i], shuffled[j] := shuffled[j], shuffled[i];
      assert shuffled[..] == Swap(before, i, j);
      i := i - 1;
    }
    FisherYatesPermutes(input, draws, |input| - 1);
  }
}
