/**
 * The Fisher-Yates shuffle of the client's array utility. `Math.random` is
 * an input, given as the index it yields in each iteration (see `Pick`).
 */
module Shuffle {

  /**
   * Random choices for an n-element array: `js[i]` is the index picked in
   * the iteration for index i, which `Pick` shows lies in [0, i].
   */
  ghost predicate Choices(js: seq<nat>, n: nat)
  {
    n <= |js| && forall i :: 0 <= i < |js| ==> js[i] <= i
  }

  /** `Math.floor(Math.random() * (i + 1))`: for a random value in [0, 1) the index lies in [0, i]. */
  function Pick(r: real, i: nat): (j: nat)
    requires 0.0 <= r < 1.0
    ensures j <= i
  {
    var c := (i + 1) as real;
    ScaleBelow(r, c);
    (r * c).Floor
  }

  /** The choices made by the loop for the values `Math.random` returns, one per index. */
  function ChoicesOf(draws: seq<real>): (js: seq<nat>)
    requires forall k :: 0 <= k < |draws| ==> 0.0 <= draws[k] < 1.0
    ensures |js| == |draws| && Choices(js, |draws|)
  {
    seq(|draws|, i requires 0 <= i < |draws| => Pick(draws[i], i))
  }

  lemma ScaleBelow(r: real, c: real)
    requires 0.0 <= r < 1.0 && 0.0 < c
    ensures 0.0 <= r * c < c
  {
    assert r * c == c - (1.0 - r) * c;
  }

  /** `[s[i], s[j]] = [s[j], s[i]]` */
  function Swap<T>(s: seq<T>, i: nat, j: nat): (r: seq<T>)
    requires i < |s| && j < |s|
    ensures |r| == |s| && r[i] == s[j] && r[j] == s[i]
    ensures forall k :: 0 <= k < |s| && k != i && k != j ==> r[k] == s[k]
  {
    s[i := s[j]][j := s[i]]
  }

  /** A swap keeps the multiset of elements. */
  lemma SwapPermutes<T>(s: seq<T>, i: nat, j: nat)
    requires i < |s| && j < |s|
    ensures multiset(Swap(s, i, j)) == multiset(s)
  {
  }

  /** The loop from iteration i down to iteration 1, applied to s. */
  function ShuffleFrom<T>(s: seq<T>, js: seq<nat>, i: nat): (r: seq<T>)
    requires i < |s| && Choices(js, |s|)
    ensures |r| == |s|
    decreases i
  {
    if i == 0 then s else ShuffleFrom(Swap(s, i, js[i]), js, i - 1)
  }

  /** What `arrayShuffle` returns for the given random choices. */
  function Shuffled<T>(s: seq<T>, js: seq<nat>): (r: seq<T>)
    requires Choices(js, |s|)
    ensures |r| == |s|
  {
    if |s| == 0 then s else ShuffleFrom(s, js, |s| - 1)
  }

  /** Each iteration only swaps, so the loop keeps the length and the multiset of elements. */
  lemma {:induction false} ShuffleFromPermutes<T>(s: seq<T>, js: seq<nat>, i: nat)
    requires i < |s| && Choices(js, |s|)
    ensures |ShuffleFrom(s, js, i)| == |s|
    ensures multiset(ShuffleFrom(s, js, i)) == multiset(s)
    decreases i
  {
    if i > 0 {
      var t := Swap(s, i, js[i]);
      SwapPermutes(s, i, js[i]);
      ShuffleFromPermutes(t, js, i - 1);
    }
  }

  /** Once iteration i has run, the positions above i are never written again. */
  lemma {:induction false} ShuffleFromKeepsAbove<T>(s: seq<T>, js: seq<nat>, i: nat)
    requires i < |s| && Choices(js, |s|)
    ensures |ShuffleFrom(s, js, i)| == |s|
    ensures forall k :: i < k < |s| ==> ShuffleFrom(s, js, i)[k] == s[k]
    decreases i
  {
    ShuffleFromPermutes(s, js, i);
    if i > 0 {
      var t := Swap(s, i, js[i]);
      ShuffleFromKeepsAbove(t, js, i - 1);
      forall k | i < k < |s|
        ensures ShuffleFrom(s, js, i)[k] == s[k]
      {
        assert ShuffleFrom(s, js, i)[k] == t[k];
      }
    }
  }

  /** The shuffled array is a permutation of the input. */
  lemma ShuffledIsPermutation<T>(s: seq<T>, js: seq<nat>)
    requires Choices(js, |s|)
    ensures |Shuffled(s, js)| == |s|
    ensures multiset(Shuffled(s, js)) == multiset(s)
  {
    if |s| > 0 {
      ShuffleFromPermutes(s, js, |s| - 1);
    }
  }

  /** Arrays of length 0 or 1 come back as an equal copy: the loop body never runs. */
  lemma ShortInputUnchanged<T>(s: seq<T>, js: seq<nat>)
    requires Choices(js, |s|) && |s| <= 1
    ensures Shuffled(s, js) == s
  {
  }

  /**
   * arrayShuffle: copies the input into a fresh array and swaps in place from
   * the last index down to 1. The input, a value here, is never touched.
   */
  method ArrayShuffle<T>(input: seq<T>, js: seq<nat>) returns (r: seq<T>)
    requires Choices(js, |input|)
    ensures r == Shuffled(input, js)
    ensures |r| == |input| && multiset(r) == multiset(input)
  {
    var newArr := new T[|input|](k requires 0 <= k < |input| => input[k]);
    assert newArr[..] == input;
    var i := newArr.Length - 1;
    while i > 0
      invariant -1 <= i < newArr.Length == |input|
      invariant newArr.Length == 0 || 0 <= i
      invariant newArr.Length == 0 ==> newArr[..] == input
      invariant 0 <= i ==> ShuffleFrom(newArr[..], js, i) == Shuffled(input, js)
    {
      var j := js[i];
      ghost var before := newArr[..];
      var t := newArr[i];
      newArr[i] := newArr[j];
      newArr[j] := t;
      assert newArr[..] == Swap(before, i, j);
      i := i - 1;
    }
    r := newArr[..];
    ShuffledIsPermutation(input, js);
  }
}
